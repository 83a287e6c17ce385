# Models and proofs for the Lightning node

A Dafny model of the parts of this node whose correctness is least visible in any single function:
chain synchronisation, the BOLT 11 invoice codec, payment retries, two small concurrency protocols,
and state that is rebuilt from compact or logged data. `dafny verify dfyconfig.toml` checks all of it.

| files | what they model |
|---|---|
| `ChainPoll`, `HeaderTree`, `ChainSync`, `InitSync` | `lightning-block-sync`: validation of fetched headers, `find_difference` on the header tree, replay to listeners and cache, the polling client, start-up synchronisation of many listeners |
| `Base32`, `Integers`, `DataPart`, `DataPartLaws`, `DataFormat`, `FeatureBits`, `Hrp` | `lightning-invoice`: the 8-to-5 bit converter, integer codecs, tagged fields and their format in numbers, feature vectors, the human-readable part and amounts |
| `InvoicePayer` | the retry machine of `lightning-invoice/src/payment.rs` |
| `LockOrder`, `SocketTask` | the lock-order checker, and the wake-up protocol of the socket task |
| `RapidGossip`, `RapidGossipLaws`, `GossipFormat`, `GossipStream` | decoding of rapid gossip streams into the network graph, and whole streams written out in the format |
| `Persister`, `PersisterLaws`, `PersisterFiles` | this node's snapshot-plus-update-log persister, down to the steps of a file write, its restart, and whole lives of crashes and restarts |

How the outside world enters. A block source, payer, router, clock or kernel is a function from the
number of the request to its answer, so it may answer the same question differently each time, or
fail at any request. Hashes, proof of work and block work are functions of a `Network` value. Valid
public keys and valid UTF-8 are predicates. Threads are sequences of atomic steps.

The assumption behind the header cache. A cache hit skips `check_builds_on`
(`lightning-block-sync/src/lib.rs:372-375`), so everything that walks the tree assumes a `Tree`: a hash
determines one header record, whose height is its parent's plus one, and validated answers and cache
entries agree with it (`TreeOk`, `Honest`, `CacheOk`). The source may still refuse to answer or answer
invalidly. The two laws about paths fetched through the poller alone need no such assumption.

## What the proofs found

- `UncheckedAmountWraps`: the overflow check on parsed amounts runs only when there is a prefix, so a
  part such as `lnbc` followed by 18446745 or more is accepted, and reading its amount wraps in a release
  build and panics where overflow checks are on; `ParsedAmountExactIff` is the exact condition.
- `PrefixAloneIsLost`: a prefix without an amount prints to text that no longer parses.
- `ReadUnderOwnWriteIsNotCaught`, `LostGuardBlocksItself`: the lock-order checker takes a read of a lock
  the same thread has locked for writing for a recursive read, and lets it block for ever; and it lets a
  thread that dropped the first of two read guards wait for its own second one. `SelfBlockIff` shows that a
  thread blocks itself in these two ways only.
- `ReadingAgainIsNotCaught`, `LostGuardBlocksTwo`: the checker allows a thread to read a lock again while
  another is queued to write it, which the standard lock may turn into a deadlock of the two; and two
  threads deadlock when one has dropped the first of two read guards early. `MutualBlockIff` shows that
  there is no third way. On mutexes there is none (`MutexesNeverBlockMutually`).
- `LongerRingsAreNotCaught`: for every ring length from three there is a deadlock the checker accepts,
  even of mutexes alone. The code compares direct predecessors only.
- `HeldIsLiveIff`, `DisorderlyDrop`: the held set is right exactly as long as first read guards are dropped
  last, which the source takes for granted in a comment.
- `ResumeLostIff`, `EarlyResumeIsOverwritten`: a resume that arrives while the read task is inside
  `read_event` is lost if that call asks for a pause, and only then.
- `MarkedCompleteIff`, `EmptyStreamMarksNothing`: a gossip stream that announces no updates succeeds
  without marking the sync as complete or storing its timestamp.
- `UpdatesApplied`: two updates for one direction of a channel in one stream always fail the second,
  since they share a timestamp; an incremental update therefore never builds on its own stream.
- `RestartRebuildsIff`, `NewChannelDropsOthers`, `ClosedUpdatesCollide`: writing any channel's snapshot
  clears every channel's log, and updates after a force-close share one file name; the recovery loop then
  starts the node with an older monitor. What the channel manager later makes of it is not modelled. One
  bad file name, one unreadable file or one refused update of any channel keeps the whole node from starting.
- `FailedWriteComesBack`: `write_to_file` can fail after its rename, so a channel whose first write was
  reported as failed, and which the node does not watch, is there again after a restart.

## Model

| member | source | states |
|---|---|---|
| `ChainPoll.ValidateHeader` | rust-lightning/lightning-block-sync/src/poll.rs:58-73 | a header is accepted exactly when it meets its target and hashes to the requested hash, and is then the record received |
| `ChainPoll.ValidateBlock` | rust-lightning/lightning-block-sync/src/poll.rs:75-96 | a block is accepted exactly when its work, hash, merkle root and witness commitment hold, and is then the one received |
| `ChainPoll.PollPrevious` | rust-lightning/lightning-block-sync/src/poll.rs:209-226 | the parent is the source's answer for the hash the child names, given exactly when there is one, it validates and the child follows it |
| `ChainPoll.CheckBuildsOn` | rust-lightning/lightning-block-sync/src/poll.rs:118-144 | a header builds on another exactly if it names it, is one higher, adds its own work and keeps the network's difficulty rule |
| `ChainPoll.PollBlock` | rust-lightning/lightning-block-sync/src/poll.rs:228-234 | the block is the source's answer, given exactly when it is genuine and has the header's hash |
| `ChainPoll.PollChainTip` | rust-lightning/lightning-block-sync/src/poll.rs:189-207 | the answer is "common" exactly if the best hash is the known one, otherwise the validated best header, better exactly if it has more chainwork; it succeeds exactly when the source answers genuinely |
| `ChainPoll.FetchedPathAccounts` | rust-lightning/lightning-block-sync/src/poll.rs:118-144 | along any path fetched through the poller heights rise by one, hashes link, and tip chainwork is the ancestor's plus the work of every block, modulo the 256-bit width |
| `ChainPoll.FetchedPathDifficulty` | rust-lightning/lightning-block-sync/src/poll.rs:118-144 | on mainnet, across k retarget heights, work per block changes by at most a factor 4^k either way, even where the shift overflows |
| `HeaderTree.DifferenceUnique` | rust-lightning/lightning-block-sync/src/lib.rs:284-300 | two tips have at most one difference: the highest common ancestor and the two paths down to it |
| `HeaderTree.DifferenceDisjoint` | rust-lightning/lightning-block-sync/src/lib.rs:284-300 | no block is both disconnected and connected |
| `HeaderTree.LookUpIsParent` | rust-lightning/lightning-block-sync/src/lib.rs:367-376 | a looked-up header is the parent, from the cache or from the source |
| `HeaderTree.DifferenceCorrect` | rust-lightning/lightning-block-sync/src/lib.rs:331-363 | a successful walk returns the highest common ancestor and exactly the two descending paths to it |
| `HeaderTree.DifferenceExistsIff` | rust-lightning/lightning-block-sync/src/lib.rs:331-363 | against a source that answers, the walk succeeds exactly when the tips share an ancestor |
| `HeaderTree.CacheNeverChangesTheAnswer` | rust-lightning/lightning-block-sync/src/lib.rs:367-376 | any two successful walks agree, whatever caches, sources and failures they met |
| `HeaderTree.CacheKeepsSuccess` | rust-lightning/lightning-block-sync/src/lib.rs:367-376 | with a source that repeats its answers, any agreeing cache gives the same answer as an empty one |
| `HeaderTree.CachedWalkNeedsNoSource` | rust-lightning/lightning-block-sync/src/lib.rs:367-376 | a walk whose way down to a common ancestor is cached succeeds even if the source answers nothing |
| `HeaderTree.FindDifference` | rust-lightning/lightning-block-sync/src/lib.rs:331-363 | the loop terminates by the sum of heights and computes the difference |
| `ChainSync.ReplayDifference` | rust-lightning/lightning-block-sync/src/lib.rs:311-325 | replaying a difference, cut off after any number of connected blocks, fits at every step, ends on the right tip, and sends nothing exactly when the tip does not move |
| `ChainSync.NotifyConnected` | rust-lightning/lightning-block-sync/src/init.rs:216-230 | a connected block reaches exactly the listeners below its height |
| `ChainSync.DisconnectBlocks` | rust-lightning/lightning-block-sync/src/lib.rs:379-386 | blocks are disconnected in descending order, leave the cache, and the cached header always equals the disconnected one |
| `ChainSync.ConnectBlock` | rust-lightning/lightning-block-sync/src/lib.rs:396-404 | one block enters the cache under its hash and is announced at its height |
| `ChainSync.ConnectBlocks` | rust-lightning/lightning-block-sync/src/lib.rs:389-407 | blocks are connected in ascending order up to the first failure, whose reported tip is the last block connected |
| `ChainSync.ReplayToListener` | rust-lightning/lightning-block-sync/src/lib.rs:311-325 | the listener's log and the cache's hashes both grow by the same cut-off replay |
| `ChainSync.SpvClient.SynchronizeListener` | rust-lightning/lightning-block-sync/src/lib.rs:311-325 | failure before the replay changes nothing; otherwise the unique difference was replayed, in full exactly on success |
| `ChainSync.SpvClient.UpdateChainTip` | rust-lightning/lightning-block-sync/src/lib.rs:257-271 | listener, cache and chain tip stay in step through full and partial success; the flag is true exactly when a notification was sent; a sync without failure, as against a source that answers, ends on the new tip |
| `ChainSync.SpvClient.PollBestTip` | rust-lightning/lightning-block-sync/src/lib.rs:237-255 | after every poll the listener stands on the chain tip, on the new chain between fork point and new tip if it moved; and whenever the source offers a genuine heavier tip that shares an ancestor, and serves it, the poll reports it as better and the chain tip becomes it |
| `ChainSync.SpvClient.PollRepeatedly` | rust-lightning/lightning-block-sync/src/lib.rs:237-271 | over any number of polls, whatever fails, listener tip and chain tip agree and the cache holds the initial hashes plus connected minus disconnected ones |
| `InitSync.BestHeader` | rust-lightning/lightning-block-sync/src/init.rs:21-29 | the header is the validated answer for the hash the source calls its best, given exactly when both requests are answered and it is genuine |
| `InitSync.FetchOldHeaders` | rust-lightning/lightning-block-sync/src/init.rs:134-144 | each listener is paired with the record of the hash it was left on |
| `InitSync.DisconnectOne` | rust-lightning/lightning-block-sync/src/init.rs:152-161 | one listener loses exactly its own stale blocks and the cache stays as it was |
| `InitSync.DisconnectAll` | rust-lightning/lightning-block-sync/src/init.rs:146-169 | so for every listener; the longest list of blocks to connect is found |
| `InitSync.SharedReplay` | rust-lightning/lightning-block-sync/src/init.rs:216-230 | the shared replay seen above one listener's fork point is that listener's own replay |
| `InitSync.ConnectAll` | rust-lightning/lightning-block-sync/src/init.rs:171-178 | one replay of the longest list sends every listener its own blocks, each once and ascending |
| `InitSync.SynchronizeListeners` | rust-lightning/lightning-block-sync/src/init.rs:126-181 | on success every listener was sent exactly its own disconnections, then its own connections, ending on the tip the source called its best; a source that answers, with a shared ancestor for each listener, gives success; on failure those reached were sent a prefix of that, the others nothing |
| `Base32.ToBase32` | rust-lightning/lightning-invoice/src/ser.rs:98-107 | the symbols are as many as the size function says and spell the zero-padded bits |
| `Base32.DecodeEncoded` | rust-lightning/lightning-invoice/src/ser.rs:12-96 | decoding inverts encoding |
| `Base32.EncodeDecoded` | rust-lightning/lightning-invoice/src/ser.rs:12-96 | whatever decodes re-encodes to the same symbols |
| `Base32.FromBase32Iff` | rust-lightning/lightning-invoice/src/ser.rs:12-96 | symbols decode to bytes exactly when they are those bytes' encoding |
| `Base32.FlushStep` | rust-lightning/lightning-invoice/src/ser.rs:42-64 | writing a buffered symbol keeps: symbols written, then buffered bits, are the input's bits |
| `Base32.CombineStep` | rust-lightning/lightning-invoice/src/ser.rs:42-64 | so does the symbol that straddles buffer and next byte |
| `Base32.FinalStep` | rust-lightning/lightning-invoice/src/ser.rs:72-88 | the last, padded symbol completes the encoding |
| `Base32.BytesToBase32.AppendU8` | rust-lightning/lightning-invoice/src/ser.rs:42-64 | after each byte the written symbols and the top buffered bits spell the input, unused bits are zero, at most seven bits wait |
| `Base32.BytesToBase32.Append` | rust-lightning/lightning-invoice/src/ser.rs:35-40 | so for any split of the input into calls |
| `Base32.BytesToBase32.Finalize` | rust-lightning/lightning-invoice/src/ser.rs:66-88 | the output is what was there before plus the whole encoding, padded once |
| `Integers.EncodeIntBe` | rust-lightning/lightning-invoice/src/ser.rs:176-215 | the push-and-reverse loops produce the shortest digit string |
| `Integers.ValueOfDigits` | rust-lightning/lightning-invoice/src/ser.rs:176-188 | the digits have the integer's positional value |
| `Integers.DigitsOfValue` | rust-lightning/lightning-invoice/src/ser.rs:176-188 | a digit string without leading zeros is the encoding of its value |
| `Integers.EncodedIntBeBase32Size` | rust-lightning/lightning-invoice/src/ser.rs:191-198 | the loop computes the size function |
| `Integers.EncodedSizeIsDigits` | rust-lightning/lightning-invoice/src/ser.rs:191-198 | for every 64-bit integer the size function is the number of digits written |
| `Integers.TryStretch` | rust-lightning/lightning-invoice/src/ser.rs:217-230 | stretching succeeds exactly when the digits fit and gives exactly the length asked for |
| `Integers.LeadingZeros` | rust-lightning/lightning-invoice/src/ser.rs:217-230 | stretching does not change the value |
| `Integers.ParseIntBeIff` | rust-lightning/lightning-invoice/src/de.rs:384-393 | the parser returns the positional value exactly when it fits the type |
| `Integers.ParseEncoded` | rust-lightning/lightning-invoice/src/de.rs:384-393 | it inverts the encoders, stretched or not |
| `DataPart.HeaderMatchesPayload` | rust-lightning/lightning-invoice/src/ser.rs:269-454 | every field's separately computed length is the length of the payload it writes |
| `DataPart.Header` | rust-lightning/lightning-invoice/src/ser.rs:406-419 | a header is the tag and the length in two symbols; 1024 symbols or more is the panic |
| `DataPart.WriteRoute` | rust-lightning/lightning-invoice/src/ser.rs:360-394 | hops written field by field through one converter give the encoding of all their bytes, padded once |
| `DataPart.ParseRouteHops` | rust-lightning/lightning-invoice/src/de.rs:583-620 | the shrinking-slice loop parses 51-byte hops in order or fails on the first bad one |
| `DataPart.ParseTaggedParts` | rust-lightning/lightning-invoice/src/de.rs:395-430 | the shrinking-slice loop computes `ParseTagged`, whose meaning is fixed field by field in the `DataFormat` rows |
| `FeatureBits.WriteFeatures` | rust-lightning/lightning/src/ln/features.rs:589-617 | the loop that ors shifted bytes into symbols, and trims, writes exactly the digits of the number the flags stand for |
| `FeatureBits.ReadFeatures` | rust-lightning/lightning/src/ln/features.rs:625-649 | the loop that ors shifted symbols into bytes, and trims, reads exactly the number the symbols stand for |
| `FeatureBits.OrChunkAdds` | rust-lightning/lightning/src/ln/features.rs:595-610 | oring a shifted byte into symbols that are free there adds it at its place |
| `FeatureBits.OrPairAdds` | rust-lightning/lightning/src/ln/features.rs:633-642 | oring a shifted symbol into bytes that are free there adds it at its place |
| `DataPartLaws.ParsedChunk` | rust-lightning/lightning-invoice/src/de.rs:432-470 | whatever one field parses to is well typed, normal, and writes no more symbols than were read |
| `DataPartLaws.ReadBackChunk` | rust-lightning/lightning-invoice/src/ser.rs:256-267 | one normal field is written as a complete field that reads back as itself |
| `DataPartLaws.ReadChunkFirst` | rust-lightning/lightning-invoice/src/de.rs:395-430 | the tagged-field parser is compositional: a complete field, then the rest |
| `DataPartLaws.SplitIntoChunks` | rust-lightning/lightning-invoice/src/de.rs:395-430 | a successful parse splits the input into one complete field each |
| `DataPartLaws.NormalRoundTrips` | rust-lightning/lightning-invoice/src/ser.rs:232-267 | a normal data part survives writing and reading, for any number and order of fields |
| `DataPartLaws.ReadIsNormal` | rust-lightning/lightning-invoice/src/de.rs:333-349 | reading only ever produces normal data parts |
| `DataPartLaws.ReencodingKeepsMeaning` | rust-lightning/lightning-invoice/src/de.rs:384-470 | re-encoding what was read and reading it again gives the same value |
| `DataPartLaws.RoundTripsIffNormal` | rust-lightning/lightning-invoice/src/ser.rs:232-454 | exactly the normal data parts survive writing and reading |
| `DataPartLaws.ReencodingIsNoLonger` | rust-lightning/lightning-invoice/src/de.rs:395-430 | a re-encoding never needs more symbols than the original |
| `DataFormat.FieldReadsAt` | rust-lightning/lightning-invoice/src/de.rs:395-430 | a field is a tag, a length in two symbols and its payload |
| `DataFormat.TruncatedField` | rust-lightning/lightning-invoice/src/de.rs:399-411 | a length that promises more symbols than there are is an error |
| `DataFormat.PaymentHashField` | rust-lightning/lightning-invoice/src/de.rs:443-445 | tag 1 with 52 symbols is the 32 bytes of a payment hash |
| `DataFormat.DescriptionField` | rust-lightning/lightning-invoice/src/de.rs:446-447 | tag 13 is a text, refused if it is not UTF-8 |
| `DataFormat.PayeePubKeyField` | rust-lightning/lightning-invoice/src/de.rs:498-511 | tag 19 with 53 symbols is a public key, refused if it is none |
| `DataFormat.DescriptionHashField` | rust-lightning/lightning-invoice/src/de.rs:450-451 | tag 23 with 52 symbols is a description hash |
| `DataFormat.ExpiryTimeField` | rust-lightning/lightning-invoice/src/de.rs:513-524 | tag 6 is a number in base 32, refused beyond 64 bits |
| `DataFormat.MinFinalCltvExpiryField` | rust-lightning/lightning-invoice/src/de.rs:526-537 | tag 24 likewise |
| `DataFormat.FallbackField` | rust-lightning/lightning-invoice/src/de.rs:539-581 | tag 9 is a version and bytes: witness programs of 2 to 40 bytes, key hash 17, script hash 18, other versions skipped |
| `DataFormat.PubKeyHashField` | rust-lightning/lightning-invoice/src/de.rs:561-569 | version 17 in symbols |
| `DataFormat.ScriptHashField` | rust-lightning/lightning-invoice/src/de.rs:570-577 | version 18 in symbols |
| `DataFormat.PrivateRouteField` | rust-lightning/lightning-invoice/src/de.rs:583-620 | tag 3 is a whole number of 51-byte hops |
| `DataFormat.HopsRead` | rust-lightning/lightning-invoice/src/de.rs:593-616 | each hop has its key, channel id, base fee, proportional fee and expiry delta at fixed offsets |
| `DataFormat.BadKeyIsRefused` | rust-lightning/lightning-invoice/src/de.rs:603-604 | one bad key refuses the whole route |
| `DataFormat.PaymentSecretField` | rust-lightning/lightning-invoice/src/de.rs:460-461 | tag 16 with 52 symbols is a payment secret |
| `DataFormat.FeaturesField` | rust-lightning/lightning-invoice/src/de.rs:462-463 | tag 5 is one number, read into bytes from the lowest without a zero byte at the top |
| `DataFormat.OtherTagsAreSkipped` | rust-lightning/lightning-invoice/src/de.rs:464-467 | all other tags are kept unread |
| `DataFormat.OtherLengthsAreSkipped` | rust-lightning/lightning-invoice/src/de.rs:475-484 | so are hashes, keys and secrets of other lengths |
| `DataFormat.BadPaddingIsRefused` | rust-lightning/lightning-invoice/src/de.rs:472-511 | bytes with non-zero or too many padding bits are refused |
| `DataFormat.DataPartReads` | rust-lightning/lightning-invoice/src/de.rs:333-365 | seven symbols of time, then the fields |
| `Hrp.StateMachine.Step` | rust-lightning/lightning-invoice/src/de.rs:122-140 | one character moves the state and extends the range of the state entered; an error changes nothing |
| `Hrp.ParseHrp` | rust-lightning/lightning-invoice/src/de.rs:159-178 | stepping the machine over the input gives the three parts |
| `Hrp.AcceptsJoined` | rust-lightning/lightning-invoice/src/de.rs:32-178 | every well-split ASCII text is accepted and split where it was joined |
| `Hrp.AcceptedIsJoined` | rust-lightning/lightning-invoice/src/de.rs:32-178 | on every accepted non-empty ASCII input "ln", currency, amount and prefix put together are the input |
| `Hrp.AcceptsIff` | rust-lightning/lightning-invoice/src/de.rs:32-178 | the accepted language on ASCII text, exactly |
| `Hrp.DecimalRoundTrip` | rust-lightning/lightning-invoice/src/de.rs:304-309 | a printed amount parses back exactly when it fits 64 bits |
| `Hrp.PrefixAloneIsLost` | rust-lightning/lightning-invoice/src/ser.rs:128-148 | a prefix without an amount is taken for part of the currency and rejected |
| `Hrp.PrintParseIff` | rust-lightning/lightning-invoice/src/de.rs:299-331 | printing then parsing is the identity exactly when a prefix comes with an amount whose product fits 64 bits |
| `Hrp.NetworkAlone` | rust-lightning/lightning-invoice/src/de.rs:181-194 | each of the five network codes alone is read as its network |
| `Hrp.OtherCodesAreRefused` | rust-lightning/lightning-invoice/src/de.rs:181-194 | every other code is refused |
| `Hrp.LetteredAmount` | rust-lightning/lightning-invoice/src/de.rs:299-331 | digits and a letter are that many thousandths, millionths, billionths or trillionths, refused exactly when that does not fit 64 bits |
| `Hrp.PlainAmount` | rust-lightning/lightning-invoice/src/de.rs:299-331 | digits alone are whole bitcoins |
| `Hrp.AmountEndToEnd` | rust-lightning/lightning-invoice/src/lib.rs:523-532 | build, print, parse and read give the same amount and pass all checks exactly up to the 64-bit maximum over ten |
| `Hrp.PrefixIsOptimal` | rust-lightning/lightning-invoice/src/lib.rs:345-363 | the chosen prefix gives the smallest amount among those that divide it |
| `Hrp.ParsedAmountExactIff` | rust-lightning/lightning-invoice/src/lib.rs:944-948 | the amount read from a parsed part is exact exactly when it has a prefix or is at most 18446744 bitcoins |
| `Hrp.UncheckedAmountWraps` | rust-lightning/lightning-invoice/src/de.rs:311-323 | every larger number of whole bitcoins is accepted and read as another amount |
| `InvoicePayer.Payer.PayInternal` | rust-lightning/lightning-invoice/src/payment.rs:414-465 | sending and resending terminates because each round raises the count, and the entry it unwraps is always there |
| `InvoicePayer.Payer.RetryPayment` | rust-lightning/lightning-invoice/src/payment.rs:467-519 | retrying counts first, creates a missing entry with count one, and terminates |
| `InvoicePayer.Payer.PayInvoiceUsingAmount` | rust-lightning/lightning-invoice/src/payment.rs:354-412 | a pending hash is an error that changes nothing; any later error removes the entry |
| `InvoicePayer.Payer.PayInvoice` | rust-lightning/lightning-invoice/src/payment.rs:330-336 | an invoice without an amount is refused and changes nothing |
| `InvoicePayer.Payer.PayZeroValueInvoice` | rust-lightning/lightning-invoice/src/payment.rs:344-352 | an invoice with an amount is refused and changes nothing |
| `InvoicePayer.Payer.RemoveCachedPayment` | rust-lightning/lightning-invoice/src/payment.rs:525-527 | the entry is gone and all others stay |
| `InvoicePayer.Payer.HandleEvent` | rust-lightning/lightning-invoice/src/payment.rs:548-592 | the new state and what the user and payer are told are those of `Handle`, whose sends, retries and forwarding the rows below state |
| `InvoicePayer.EveryRunGood` | rust-lightning/lightning-invoice/src/payment.rs:354-592 | over every run an entry has been sent at most as often as its count allows |
| `InvoicePayer.RetryLimit` | rust-lightning/lightning-invoice/src/payment.rs:276-287 | between entering and leaving the cache a hash is sent at most n+1 times, n if a failure event made the entry, whatever payer, router, clock and events do |
| `InvoicePayer.SendsOnlyWhileCached` | rust-lightning/lightning-invoice/src/payment.rs:414-519 | nothing is sent for a hash that is not in the cache at that moment |
| `InvoicePayer.PayNewFrame` | rust-lightning/lightning-invoice/src/payment.rs:354-412 | a failed pay call leaves the cache exactly as it was, a successful one adds only its own entry |
| `InvoicePayer.HandleFrame` | rust-lightning/lightning-invoice/src/payment.rs:574-588 | a settled payment leaves the cache, a failed path touches at most its own entry, other events touch none |
| `InvoicePayer.PaidIffInFlight` | rust-lightning/lightning-invoice/src/payment.rs:432-464 | a pay call reports success exactly when one of its attempts left money in flight, even if a later retry failed |
| `InvoicePayer.WithheldIffInFlight` | rust-lightning/lightning-invoice/src/payment.rs:548-592 | an event is withheld from the user exactly when handling it left money in flight |
| `InvoicePayer.AbandonedIffForwarded` | rust-lightning/lightning-invoice/src/payment.rs:558-572 | the payer is told to give up exactly when a failed path of a payment with an id reaches the user |
| `InvoicePayer.LimitIsReached` | rust-lightning/lightning-invoice/src/payment.rs:414-465 | the limit is tight: a payer that always fails safely is asked exactly n+1 times |
| `InvoicePayer.PayNewSends` | rust-lightning/lightning-invoice/src/payment.rs:354-465 | a pay call sends exactly as often as expiry, routes, the payer's answers and the retry limit let it |
| `InvoicePayer.PayNewOutcome` | rust-lightning/lightning-invoice/src/payment.rs:354-465 | what a pay call reports, by what it met first |
| `InvoicePayer.EventSends` | rust-lightning/lightning-invoice/src/payment.rs:548-572 | a failed path is sent again exactly as often as retries are left and routes and time allow; no other event sends |
| `InvoicePayer.RetriedIff` | rust-lightning/lightning-invoice/src/payment.rs:548-572 | a failed path is sent again exactly if it asks for it, a retry is left, the payment has not expired and a route is found; if accepted, the user does not hear of it |
| `InvoicePayer.EventUsesAllRetries` | rust-lightning/lightning-invoice/src/payment.rs:467-519 | a payment that keeps failing safely uses every retry that is left |
| `LockOrder.LockMetadata.PreLock` | rust-lightning/lightning/src/debug_sync.rs:78-109 | the loops over sets, in any order, give the verdict, and success records every held lock as locked before |
| `LockOrder.RunOrdered` | rust-lightning/lightning/src/debug_sync.rs:77-112 | in every panic-free run no two locks are each recorded before the other, and none before itself |
| `LockOrder.ConsistentOrderNeverPanics` | rust-lightning/lightning/src/debug_sync.rs:77-112 | threads that take their locks in some fixed order, or read again what they hold, never panic |
| `LockOrder.RunRecorded` | rust-lightning/lightning/src/debug_sync.rs:77-112 | a waiting thread's other held locks are all recorded before the lock it waits for |
| `LockOrder.RunHeld` | rust-lightning/lightning/src/debug_sync.rs:149-155 | the held set is the locks with an owning guard plus the one first waited for |
| `LockOrder.RunExcludes` | rust-lightning/lightning/src/debug_sync.rs:255-263 | an exclusive guard is the only guard on its lock |
| `LockOrder.HeldIsLiveIff` | rust-lightning/lightning/src/debug_sync.rs:214-226 | the held set is right after every step exactly when first read guards are dropped last |
| `LockOrder.LifoIsOrderly` | rust-lightning/lightning/src/debug_sync.rs:214-242 | guards dropped last in, first out keep the held set equal to the locks with a live guard, recursive reads included |
| `LockOrder.MutualBlockIff` | rust-lightning/lightning/src/debug_sync.rs:77-112 | in every panic-free run, on any mix of mutexes, read and write locks, two threads hold each other up when waiting writers hold up readers and one reads a lock again behind the other, and otherwise only through a read guard the held set has lost |
| `LockOrder.OrderlyMutualBlockIff` | rust-lightning/lightning/src/debug_sync.rs:214-226 | as long as first read guards are dropped last, reading again behind a queued writer is exactly the way two threads hold each other up |
| `LockOrder.NoMutualBlock` | rust-lightning/lightning/src/debug_sync.rs:255-263 | two threads that both want exclusive access hold each other up only through a read guard the held set has lost |
| `LockOrder.MutexesNeverBlockMutually` | rust-lightning/lightning/src/debug_sync.rs:176-179 | on mutexes no two threads ever wait on each other's held lock, in every panic-free run, whatever else they read and in whatever order they drop their guards |
| `LockOrder.ReadingAgainIsNotCaught` | rust-lightning/lightning/src/debug_sync.rs:84-89 | the checker accepts a run into that deadlock |
| `LockOrder.DisorderlyDrop` | rust-lightning/lightning/src/debug_sync.rs:214-226 | a run in which a lock with a live guard drops out of the held set |
| `LockOrder.LostGuardBlocksItself` | rust-lightning/lightning/src/debug_sync.rs:214-226 | after that a thread waits for its own guard, with no panic |
| `LockOrder.LostGuardBlocksTwo` | rust-lightning/lightning/src/debug_sync.rs:214-226 | or two threads that both want exclusive access wait for each other |
| `LockOrder.WaitRingIsOrderRing` | rust-lightning/lightning/src/debug_sync.rs:77-112 | round any ring of stuck threads the recorded order runs round too, staying on one lock behind a queued writer, unless a lock is read again there or a guard that holds another thread up was lost |
| `LockOrder.LongerRingsAreNotCaught` | rust-lightning/lightning/src/debug_sync.rs:91-104 | for every length from three there is a panic-free run into a deadlocked ring |
| `LockOrder.SelfBlockIff` | rust-lightning/lightning/src/debug_sync.rs:84-89 | in every panic-free run a thread holds itself up exactly by reading a lock it holds exclusively, or by asking for exclusive access where it has a read guard the held set has lost |
| `LockOrder.ReadUnderOwnWriteIsNotCaught` | rust-lightning/lightning/src/debug_sync.rs:84-89 | the checker accepts a run that does so |
| `SocketTask.Connection.SendData` | rust-lightning/lightning-net-tokio/src/lib.rs:424-477 | the bytes handed to the kernel are a prefix of the data, as long as returned; the last answer asked for says exactly whether it fell short, blocked or panicked, and all before it accepted something; a full buffer pauses reading and leaves a read token, a resume without one unpauses |
| `SocketTask.Connection.DisconnectSocket` | rust-lightning/lightning-net-tokio/src/lib.rs:479-484 | the flag and the token are set and nothing else changes |
| `SocketTask.WakeupsKept` | rust-lightning/lightning-net-tokio/src/lib.rs:162-203 | every step keeps: parked and disconnect requested means a write token; parked on a stale pause flag means a read token |
| `SocketTask.NeverParkedInVain` | rust-lightning/lightning-net-tokio/src/lib.rs:162-203 | in every interleaving a parked task that should act can be woken without waiting for the peer |
| `SocketTask.DisconnectIsCarriedOut` | rust-lightning/lightning-net-tokio/src/lib.rs:162-212 | after a disconnect request the read task ends within four steps of its own, besides one wake-up per token while it writes a first message, and always has a step to take |
| `SocketTask.AtMostOneReadWhilePaused` | rust-lightning/lightning-net-tokio/src/lib.rs:169-191 | while reading stays paused at most the read already waiting gets through |
| `SocketTask.BlockedSendPauses` | rust-lightning/lightning-net-tokio/src/lib.rs:465-473 | after a send that filled the kernel's buffer a parked task is woken, and until a resume reading stays paused and at most the read already waiting gets through |
| `SocketTask.WakesUseTokens` | rust-lightning/lightning-net-tokio/src/lib.rs:162-203 | the read task wakes at most once for each time somebody woke it |
| `SocketTask.EndingIsRight` | rust-lightning/lightning-net-tokio/src/lib.rs:157-212 | the peer is reported gone exactly when the socket said so |
| `SocketTask.ClosedForGood` | rust-lightning/lightning-net-tokio/src/lib.rs:157-212 | an ending stands, and a closed connection has no writer |
| `SocketTask.ResumeLostIff` | rust-lightning/lightning-net-tokio/src/lib.rs:178-186 | until the next read, resume or full buffer, a resume is lost exactly when a pause asked for earlier is recorded after it |
| `SocketTask.ResumeCanBeLostIff` | rust-lightning/lightning-net-tokio/src/lib.rs:178-186 | it can be lost exactly when it comes while the read task is inside `read_event` |
| `SocketTask.EarlyResumeIsOverwritten` | rust-lightning/lightning-net-tokio/src/lib.rs:178-186 | a run in which that happens |
| `RapidGossip.RapidGossipSync.UpdateNetworkGraph` | rust-lightning/lightning-rapid-gossip-sync/src/processing.rs:43-230 | the three loops compute `SyncFrom`, failures part way included; what that is for a stream in the format is `GossipStream.StreamRoundTrip` |
| `RapidGossip.RapidGossipSync.ReadHeader` | rust-lightning/lightning-rapid-gossip-sync/src/processing.rs:47-75 | prefix, timestamp and node ids are read in order, or the first failure is returned |
| `RapidGossip.RapidGossipSync.RunSection` | rust-lightning/lightning-rapid-gossip-sync/src/processing.rs:76-108 | a section applies its items in order and keeps those before a failure |
| `RapidGossip.RapidGossipSync.ReadUpdates` | rust-lightning/lightning-rapid-gossip-sync/src/processing.rs:110-230 | the update section as `SyncUpdates`: the marks are set only after it succeeded |
| `RapidGossipLaws.SectionCounted` | rust-lightning/lightning-rapid-gossip-sync/src/processing.rs:129-225 | a section succeeds exactly when it went through all its items |
| `RapidGossipLaws.AnnouncementsDecoded` | rust-lightning/lightning-rapid-gossip-sync/src/processing.rs:74-92 | announced ids are non-wrapping running sums and both node indices lie in the id list and name two nodes |
| `RapidGossipLaws.AnnouncementsApplied` | rust-lightning/lightning/src/routing/gossip.rs:1229-1298 | known channels stay as they were; a new one is what its first announcement says |
| `RapidGossipLaws.UpdatesDecoded` | rust-lightning/lightning-rapid-gossip-sync/src/processing.rs:110-135 | updated ids are non-wrapping running sums |
| `RapidGossipLaws.ChannelUpdated` | rust-lightning/lightning/src/routing/gossip.rs:1480-1570 | an accepted update replaces exactly one direction, which was older |
| `RapidGossipLaws.UpdateStores` | rust-lightning/lightning-rapid-gossip-sync/src/processing.rs:129-225 | so does each item of a stream |
| `RapidGossipLaws.UpdateIsRelative` | rust-lightning/lightning-rapid-gossip-sync/src/processing.rs:137-222 | an update differs from its base only where its mask has a bit |
| `RapidGossipLaws.UpdatesApplied` | rust-lightning/lightning-rapid-gossip-sync/src/processing.rs:129-225 | each direction is updated at most once per stream and then holds that update |
| `RapidGossipLaws.UpdatesAreRelative` | rust-lightning/lightning-rapid-gossip-sync/src/processing.rs:155-190 | every update is relative to the graph before the section's first one |
| `RapidGossipLaws.StreamMeaning` | rust-lightning/lightning-rapid-gossip-sync/src/processing.rs:43-230 | after any stream, failed or not, each direction holds its one update or what was stored before |
| `RapidGossipLaws.StreamItemsRelative` | rust-lightning/lightning-rapid-gossip-sync/src/processing.rs:43-230 | each update differs from the defaults or from what was stored before the whole stream only where masked |
| `RapidGossipLaws.MarkedCompleteIff` | rust-lightning/lightning-rapid-gossip-sync/src/processing.rs:110-230 | a stream succeeds exactly when all announced updates were applied, and marks the sync complete exactly when there was at least one |
| `RapidGossipLaws.EmptyStreamMarksNothing` | rust-lightning/lightning-rapid-gossip-sync/src/processing.rs:112-115 | a stream that announces nothing succeeds and leaves everything as it was |
| `GossipFormat.BigSizeIff` | rust-lightning/lightning/src/util/ser.rs:327-381 | the reader accepts exactly what the writer writes |
| `GossipFormat.FieldsRoundTrip` | rust-lightning/lightning-rapid-gossip-sync/src/processing.rs:192-222 | each masked field is read where the format puts it |
| `GossipFormat.ItemRoundTrip` | rust-lightning/lightning-rapid-gossip-sync/src/processing.rs:129-225 | a written update is decoded to its id, flags and fields laid over the base |
| `GossipStream.DefaultsRoundTrip` | rust-lightning/lightning-rapid-gossip-sync/src/processing.rs:117-127 | the five defaults are read in the format's order |
| `GossipStream.KeysReadIff` | rust-lightning/lightning-rapid-gossip-sync/src/processing.rs:62-71 | the node ids are read exactly if the bytes suffice and every 33 are a public key |
| `GossipStream.OtherPrefixIsRefused` | rust-lightning/lightning-rapid-gossip-sync/src/processing.rs:47-55 | any other kind or version is refused and changes nothing |
| `GossipStream.StreamRoundTrip` | rust-lightning/lightning-rapid-gossip-sync/src/processing.rs:43-230 | decoding a stream written in the format does to graph, marks and result exactly what its announcements and updates mean, one after the other, up to the first that fails |
| `GossipStream.FlagByte` | rust-lightning/lightning-rapid-gossip-sync/src/processing.rs:135-222 | which bit of the flag byte says what |
| `GossipStream.AnnouncementTakenIff` | rust-lightning/lightning-rapid-gossip-sync/src/processing.rs:76-108 | an announcement is taken exactly if its id does not wrap and it names two different listed nodes |
| `GossipStream.UpdateTakenIff` | rust-lightning/lightning/src/routing/gossip.rs:1480-1570 | an update is taken exactly if its id does not wrap, its channel and base are known, the clock allows it, the stored direction is older, and the amount is possible |
| `GossipStream.UpdateSays` | rust-lightning/lightning/src/routing/gossip.rs:1480-1570 | a taken update changes one direction alone: enabled unless the second flag bit is set, with the stream's time and the fields laid over their base |
| `Persister.Directory.WriteToFile` | src/disk.rs:203-237 | after any number of steps, cut short by an error or a crash, the directory has a temporary file with a prefix of the data or, after the rename, the file under its final name; it succeeds only if the directory was opened after that |
| `Persister.Directory.Clear` | src/disk.rs:193-196 | the removal of a directory, cut short anywhere |
| `Persister.WrittenStores` | src/disk.rs:203-237 | a write cut short before its rename changes no final file, after it stores exactly its entry |
| `Persister.YourPersister.WriteSnapshot` | src/disk.rs:184-196 | the files after a snapshot written in full or cut short and the log cleared in full or in part, and what they stand for |
| `Persister.YourPersister.PersistNewChannel` | src/disk.rs:154-169 | a failed write is reported even if the snapshot is in place, the log then stays; a failed removal is a panic |
| `Persister.YourPersister.UpdatePersistedChannel` | src/disk.rs:171-199 | the same for an update's own file, or for a snapshot and the clearing of the whole log, every failure a panic |
| `Persister.ReadChannelMonitorUpdates` | src/disk.rs:85-150 | the read fails on any bad entry, skips temporary files, and groups the rest by channel in directory order |
| `Persister.ReadChannelMonitors` | rust-lightning/lightning-persister/src/lib.rs:59-116 | the same for snapshots |
| `Persister.Recover` | src/main.rs:521-546 | sorting and applying stops at the first update out of order or refused |
| `Persister.StartNode` | src/main.rs:512-549 | the whole restart: both directories are read, then every monitor is rebuilt, ending at the first failure |
| `PersisterLaws.SortListed` | src/main.rs:525-527 | sorting any listing of a log gives an increasing listing of the same log |
| `PersisterLaws.IncreasingListingUnique` | src/main.rs:525-527 | a log has one increasing listing, so directory order does not matter |
| `PersisterLaws.AlwaysConsistent` | src/disk.rs:154-199 | after every operation snapshot plus pending updates is the monitor in memory, and the log holds all of them or fewer |
| `PersisterLaws.OrphansOnDisk` | src/disk.rs:158-163 | the snapshots on disk are those of the channels in memory and of failed first writes that got past their rename |
| `PersisterLaws.ChannelRebuildsIff` | src/main.rs:521-546 | one channel is rebuilt exactly when its log is complete and none of its updates is refused |
| `PersisterLaws.ReplayNext` | src/main.rs:528-546 | an update ends the restart exactly if its id is neither the next nor the force-close one, or the monitor refuses it; whatever follows |
| `PersisterLaws.BadEntryStopsNode` | src/main.rs:512-520 | one bad entry in either directory ends the restart of the whole node |
| `PersisterLaws.RestartRebuildsIff` | src/main.rs:512-549 | a restart rebuilds exactly the monitors in memory if and only if both directories are readable, no failed first write left its snapshot behind and, for every channel, the log is intact and no logged update was refused |
| `PersisterLaws.OneChannelIsIntact` | src/disk.rs:171-199 | with one channel and ordinary increasing ids the log is always intact |
| `PersisterLaws.NewChannelDropsOthers` | src/disk.rs:165-168 | watching a new channel drops the other channels' updates, and the recovery loop starts with an older monitor |
| `PersisterLaws.ClosedUpdatesCollide` | src/disk.rs:175-181 | two updates after a force-close share a file name, and no restart rebuilds the monitor |
| `PersisterLaws.FailedWriteComesBack` | src/disk.rs:225-229 | after a failed first write that got past its rename, the restart brings up the channel that was not watched |
| `PersisterFiles.FilesFollow` | src/disk.rs:154-237 | after every run, first writes that failed before or after their rename included, the files stand for the disk of the model |
| `PersisterFiles.FilesAreReadable` | src/disk.rs:85-150 | such directories are readable, temporary files included, and list exactly the snapshots and logs |
| `PersisterFiles.RunRestartsIff` | src/main.rs:512-549 | from the files a run leaves, in any directory order, the node restarts with the monitors in memory exactly under that condition |
| `PersisterFiles.CrashWhileLogging` | src/disk.rs:203-237 | after a crash at any step of writing an update, the restart is that of the run without the update, or with it if the write got past its rename |
| `PersisterFiles.CrashWhileSnapshotting` | src/disk.rs:203-237 | after a crash before a snapshot's rename, the restart is that of the run without the operation |
| `PersisterFiles.CrashWhileClearing` | src/disk.rs:181-197 | after a crash between a snapshot's rename and the end of the clearing, the node restarts with the monitors in memory exactly when none of the channel's own files is left and all of the others' are |
| `PersisterFiles.StartedIsBooted` | src/main.rs:512-549 | what a restart starts with is its snapshots with their whole logs applied |
| `PersisterFiles.LifeBooted` | src/main.rs:512-549 | however many crashes and restarts a node has been through, its files stand for what it knows |
| `PersisterFiles.LifeRestartsIff` | src/main.rs:512-549 | over whole lives the next restart rebuilds exactly the monitors in memory under the same condition on the last run alone |

## Left out

- HTTP, REST, RPC and JSON conversion, the command line, event printing, database and probing: I/O around the modelled code.
- Signatures, merkle and witness checks, and hashing: answers of foreign code, taken as given.
- The builder's other methods, semantic checks of whole invoices and the bech32 checksum: they would add only easy members.
- The bech32 library's 5-to-8 bit decoder is the strict inverse of the encoder: fewer than five left-over bits, all zero.
- ChainSync.Listeners: one listener object registered under two positions is not modelled; each position has its own log.
- Hrp.ParseHrp: takes ASCII text only, as bech32 delivers; the source's digit test accepts other scripts' digits and its ranges count characters.
- `Retry::Timeout` and interleaved calls of `InvoicePayer`: attempts are counted, and calls and events happen one after another. The counter is unbounded where the source has a machine word. Scorer notifications are not recorded.
- Try-locks and condition variables in debug_sync.rs: a successful try-lock records an order without checking it. Each pre-lock check is one step.
- The event-processing task of the socket code and real time-outs; spurious kernel wake-ups are allowed at any moment.
- The node side of the network graph: per-node channel lists and lowest fees. Bytes are natural numbers below 256 only where a law needs it.
- Two channels funded by one transaction: src/disk.rs:131-138 groups updates by transaction alone; the model names channels by transaction.
- Windows: the rename and the opening of the directory at src/disk.rs:225-233 are compiled out there, and no file ever gets its final name.
- Directory entries that come and go during a restart, and file systems that reorder a rename before the data it names. Serialisation is a pair of functions that read back what they wrote.
