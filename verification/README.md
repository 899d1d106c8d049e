# ENet in Dafny

A Dafny 4.11 model of the hard parts of ENet 1.3.18, the reliable UDP library in `enet-1.3.18/`, with proofs of what
they are for. `dafny verify dfyconfig.toml` checks the whole of it.

## The parts

**The compressor** (`compress.c`). `RangeCoding` is the carryless 32-bit range coder over arbitrary triples
(under, count, total); `CoderLoops` holds its macros as loops over words that wrap, with the bitwise operators of `Words`.
`ContextTree` is the binary tree of one context, first as a value, then in the arena with its partial sums.
`PredictionModel` is the adaptive order-2 model as plain frequency tables, keyed by the last bytes; `SymbolArena` says when
an arena tells such a model, whatever the indices of its symbols. `InputBuffers` is what the compressor reads, and what
empty packets give it to read. `Compression` is the coder itself, one class over the 4096 symbols: `Compress`,
`Decompress`, and `RoundTrip` for the two together. Decompression has no precondition on its data: it stays inside the
arena and ends on every input.
`ModelCounting` says what the model is without it: over whole inputs, the last two bytes and plain counts of what has
followed them. `UniqueDecoding` proves that the code, which holds no length and no end mark, has only one reading, and
`ModelSynchronisation` that the two arenas, filled in different orders, are equal up to renaming, search trees included.

**Reliable delivery** (`peer.c`, `protocol.c`). `SequenceNumbers` relates 16-bit numbers to unbounded ones.
`Reassembly` is the buffer of a fragmented packet, `ReliableReceiver` the receiving channel as a class: the sorted queue,
reassembly, dispatch, and the acknowledgements that are held back. `Fragmentation` cuts packets and puts them together.
`ReliableDelivery` is the system of one sender, one receiver and a network that loses, repeats and reorders, as a state
machine in unbounded numbers; its joint invariant gives in-order exactly-once delivery, "acknowledged implies accepted",
and delivery of everything once everything is accepted, over all runs. Two assumptions on the network are explicit, and
together are `Timely`: no datagram arrives whose packet starts ten or more windows behind the receiver (`YoungDatagram`),
and no acknowledgement sixteen or more windows behind the sender (`YoungAcknowledgement`). `ReliableLimits` shows what
happens without, and `ReliableSizes` how long a packet may be. `WindowMask`, `SendLedger` and `Sending` are the sending
side: queues, window counters, references, timeouts, acknowledgements, the filling of datagrams and the passes of one call.
What `Sending` transmits is shown to be a run of the system's steps (`BeginsKeeps`).

**Unreliable and unsequenced traffic.** `UnreliableDispatch` gives the meaning of the queue and of the splicing loop that
delivers from it, `UnreliableQueues` is the class that keeps it, in 16-bit numbers and for any command, and
`UnreliableDelivery` its runs: packets of a log arrive late, repeated, reordered and in fragments, and the receiver sees
16 bits of their numbers. `SendingOrder` is how `enet_peer_send` chooses the manner of sending and numbers what it sends; it
proves that the log is in order, with unreliable counts within 16 bits, because a channel that has used its count up sends
reliably. Two assumptions are left: what arrives is neither ten windows old nor a lap ahead (`Timely`), and a step moves the
reliable position by nine windows at most, which `PositionMoves` derives from the runs of the reliable channel.
`Unsequenced` is the window of group numbers.

**The host** (`host.c`, `protocol.c`). `PeerStates` and `Hosts` are the peer slots with the two counts the host keeps,
every step of the state machine, the handlers of the handshake, and the two halves of the bandwidth throttle.
`Handshake` runs the handshake between a client and a server over such a network, from CONNECT to the acknowledgement that
connects the slot. Without checksums it assumes that no acknowledgement reaches a later attempt than its own
(`OwnAcknowledgements`); with checksums, which are keyed with the connectID, that is proved (`ChecksumsSuffice`).

**Below.** `Lists` is the circular list with splice, proved to refine sequences; the queues elsewhere are sequences.
`Checksum` is the table-driven CRC-32. `Integers` has the unsigned types, `Options` values that may be missing.

## Where the code falls short of its promise

- `ReadingDefined`, `ReadsWhatIsGiven`: the compressor takes a byte from every buffer after the first without looking at
  its length. The buffer of an empty packet, as `enet_packet_create` makes it, is a null pointer, and reading from it is
  undefined. An empty packet that was not allocated by the library, or was resized to nothing, has a byte there, which is
  then compressed along with the rest (`EmptyPackets`).
- `NeverDelivered`: a reliable packet that spans more than about seven windows, 18 megabytes at an mtu of 576, is accepted for
  sending under the default limit of 32 megabytes, and neither it nor anything behind it is ever delivered. `TooLong` is the
  exact condition, `CanBeDelivered` the other direction.
- `RetransmissionTakenForNew`, `AcknowledgedAndLost`: fragments of a packet that has been delivered are told from new ones
  by the number of the packet's first fragment. If a packet spans five windows (eleven megabytes at an mtu of 576), all of
  it is delivered, and only the acknowledgement of its last fragment stays missing while five more windows are sent, the
  retransmission of that fragment, which is still outstanding, is taken for the start of a packet 2^16 numbers later and
  stays in the queue. The packet that gets that number is then acknowledged and lost, and nothing behind it is delivered
  (`NothingDelivered`) unless the rest of the old fragments come again. `RecognisedAsOld` gives the exact condition,
  `RetransmissionsAreYoung` a packet size that rules it out.
- `LaterAcknowledgesWhatItDrops`: a receiver that was told to disconnect later acknowledges unfragmented reliable packets
  without keeping them. `LaterWhole` says exactly which; `LaterFragment` that fragments are not affected.
- `LapAhead`, `TenWindowsLate`: unreliable packets can overtake one another beyond the two bounds of `Timely`. An
  unreliable packet carries the number of the last reliable one queued, not sent, so that it can be a lap ahead of a
  receiver when the sender has queued 65536 reliable packets.
- `StaleAcknowledgement`: session numbers count modulo 4, so that without checksums an acknowledgement from two attempts
  ago can connect a slot whose numbers the client does not have. `SessionDecides` says when it does.
- `MtusApart`: both ends clamp the other's mtu to at least 576 but not their own, so that a host configured below 576 can
  end up with a different mtu from its peer's. `MtuAgrees` is the exact condition.
- `AcceptedTwice`: an unsequenced group that arrives more than 32768 groups late can be accepted a second time.
  `LateIgnored` is the exact condition.

## Model

| member | source | states |
|---|---|---|
| RangeCoding.NarrowKeeps | enet-1.3.18/compress.c:121-125 | dividing the interval among a total of at most 65535 and taking one share wraps nowhere, leaves at least one code, and stays inside the old interval |
| RangeCoding.StraddleBoundary | enet-1.3.18/compress.c:128-132 | truncating a narrow interval that straddles two top bytes cuts it exactly at the boundary between them and never empties it |
| RangeCoding.ShiftProgress | enet-1.3.18/compress.c:126-136 | every turn of the renormalisation loop, from any state with a non-empty interval, keeps it non-empty and comes closer to the end of the loop |
| RangeCoding.RenormaliseKeeps | enet-1.3.18/compress.c:126-136 | after the loop the interval is at least 2^16 wide and low + range has not passed 2^32 |
| RangeCoding.FlushWindow | enet-1.3.18/compress.c:139-146 | a decoder that reads the flushed bytes, continued with zeros, finds exactly encodeLow |
| RangeCoding.EncodingInside | enet-1.3.18/compress.c:121-146 | whatever is encoded later, the 32 bits at this point of the stream lie inside the interval and inside the share of the next symbol |
| RangeCoding.ReadsSlot | enet-1.3.18/compress.c:352-352 | given only the total, the decoder reads a value inside [under, under + count) |
| RangeCoding.DecoderFollows | enet-1.3.18/compress.c:344-371 | over every list of (under, count, total) triples the decoder stays in lock-step: each read lands in its slot, and at the end the code equals low |
| RangeCoding.EndReadsEscape | enet-1.3.18/compress.c:565-569 | past the end of the stream every slot that starts at 0, as all escapes do, reads 0, and the code keeps equal to low |
| CoderLoops.WordTests | enet-1.3.18/compress.c:128-131 | the exclusive-or and the mask of the loop are, on every word, the comparison of the top bytes and the distance to the next multiple of 2^16 |
| CoderLoops.Encode | enet-1.3.18/compress.c:121-137 | the encoder macro writes exactly the bytes of the step and fails exactly when they do not fit |
| CoderLoops.FlushLow | enet-1.3.18/compress.c:139-146 | the flush macro writes exactly the digits of low |
| CoderLoops.Seed | enet-1.3.18/compress.c:344-350 | the window holds the first four bytes, zeros where the data ends |
| CoderLoops.ReadCode | enet-1.3.18/compress.c:352-352 | the quotient, cut to 16 bits, and the divided range |
| CoderLoops.Consume | enet-1.3.18/compress.c:354-371 | the decoder macro ends for every input, moves its interval as the encoder did, and shifts one byte in for each one emitted |
| CoderLoops.ReadStep | enet-1.3.18/compress.c:352-371 | for a decoder in step the 16-bit read lies in the slot and what remains is the code of the slots that follow |
| ContextTree.SearchFinds | enet-1.3.18/compress.c:159-199 | the search for a byte ends at its node with its count, or below a leaf exactly if the tree does not know it, and entering it there keeps the search order |
| ContextTree.AlongSearch | enet-1.3.18/compress.c:182-192 | the sum of `under` collected on the way right is the cumulative frequency of the smaller bytes |
| ContextTree.DecodeIsSearch | enet-1.3.18/compress.c:373-438 | a code inside the share of a byte leads decoding down the same route as the search for that byte, through the gaps between the bytes of the root as well |
| ContextTree.BumpTabulates | enet-1.3.18/compress.c:159-199 | entering a byte adds the update to its frequency and to no other |
| ContextTree.DescentRefines | enet-1.3.18/compress.c:170-197 | the in-place updates along a route leave, in the arena, the tree with that byte entered: under is again own count plus left subtree |
| ContextTree.RescaleRefines | enet-1.3.18/compress.c:90-105 | the in-place rescaling leaves, in the arena, the tree with every count halved and every `under` summed up anew |
| ContextTree.HalvedTabulates | enet-1.3.18/compress.c:90-105 | rescaling halves every frequency, rounding up, and keeps the search order |
| PredictionModel.SubcontextBounded | enet-1.3.18/compress.c:293-318 | a visit to a subcontext keeps counts within 253, the total within 16 bits, and leaves its escapes positive |
| PredictionModel.RootBounded | enet-1.3.18/compress.c:321-329 | a visit to the order-0 context keeps counts within 252 and the total within 16 bits, its escape always 1 |
| PredictionModel.AdvanceOk | enet-1.3.18/compress.c:148-157 | each byte creates at most order + 1 symbols, so that 4096 are enough with the rule for starting over |
| SymbolArena.EnterFacts | enet-1.3.18/compress.c:159-199 | entering a byte keeps the arena well formed, every other context balanced, and parents pointing to the context without the first byte |
| SymbolArena.DecodeTells | enet-1.3.18/compress.c:373-438 | in an arena that tells a model, a code inside the share of a byte decodes to that byte, its cumulative frequency and its count |
| SymbolArena.PatchTells | enet-1.3.18/compress.c:598-614 | patching a longer context that had escaped learns what the encoder learned there, one symbol being created for each |
| Compression.RangeCoder.Rescale | enet-1.3.18/compress.c:90-105 | recursive to the left and a loop to the right, it leaves the rescaled arena and returns the new sum of counts |
| Compression.RangeCoder.ContextEncode | enet-1.3.18/compress.c:159-199 | one entry in the tree: (under, count) are the cumulative frequency and the frequency before it |
| Compression.RangeCoder.ContextDecode | enet-1.3.18/compress.c:373-438 | the inverse walk; TRY_DECODE gives up exactly where the tree ends and ROOT_DECODE creates the byte that lies there |
| Compression.RangeCoder.ContextRescale | enet-1.3.18/compress.c:107-112 | the total is again escapes + 256 * minimum + the sum of counts |
| Compression.RangeCoder.Visit | enet-1.3.18/compress.c:289-291 | entry plus the pending parent link: afterwards only the new symbol, if there is one, still lacks its parent |
| Compression.RangeCoder.EncodeInSubcontext | enet-1.3.18/compress.c:286-319 | writes the symbol if the context knows the byte, an escape if it has one, nothing otherwise, and leaves the context as the model says |
| Compression.RangeCoder.EncodeByte | enet-1.3.18/compress.c:286-329 | writes the code of the byte after the code so far, and the arena then tells the model that has learned it, with equal nextSymbol |
| Compression.RangeCoder.NextInput | enet-1.3.18/compress.c:331-336 | moves to the context without its first byte, and starts over exactly when fewer than three symbols are left |
| Compression.RangeCoder.Compress | enet-1.3.18/compress.c:246-342 | returns the code of the bytes it reads if that fits the limit and 0 otherwise, for all buffers from which reading is defined; which code that is, HistoryTold, TablesTold and CodeTold say without the model |
| ModelCounting.HistoryTold | enet-1.3.18/compress.c:286-336 | over every whole input that has not used up the 4096 symbols: the history is its last two bytes, one symbol has been taken for each different string of one to three bytes, and a context knows exactly the bytes that have followed its history |
| ModelCounting.StartsOver | enet-1.3.18/compress.c:148-157 | with the byte that brings the symbols to 4094 or more the model starts over, and goes on as for an input that begins there |
| ModelCounting.TablesTold | enet-1.3.18/compress.c:284-329 | before any rescaling every table is plain counting: 3 for each coding of a byte in the root, 2 in a subcontext, and 5 escapes for each byte new to it |
| ModelCounting.CodeTold | enet-1.3.18/compress.c:286-329 | so the triples coded for a whole input are those of the counts: an escape for each longer history that does not know the byte, and then its share of the first that does |
| ModelCounting.CodeOfFour | enet-1.3.18/compress.c:246-342 | one input in full: the code of "aaaa" is 62 02 19 99 |
| InputBuffers.ReadingDefined | enet-1.3.18/compress.c:274-284 | reading is defined exactly if every empty buffer but the first has a readable byte behind it |
| InputBuffers.ReadsWhatIsGiven | enet-1.3.18/compress.c:274-284 | the bytes read are the bytes given exactly if no buffer but the first is empty |
| InputBuffers.EmptyPackets | enet-1.3.18/packet.c:20-99 | an empty packet as created has nothing to read; one that points elsewhere, or was resized to nothing, still has a byte |
| Compression.RangeCoder.FindContext | enet-1.3.18/compress.c:529-557 | escapes down to the context that knows the next byte, on any data; in step with the encoder it is the one in which the byte was coded |
| Compression.RangeCoder.DecodeInRoot | enet-1.3.18/compress.c:559-596 | decodes a byte of the root, known or not; in step with the encoder it ends at the end of the stream and only there |
| Compression.RangeCoder.PatchContexts | enet-1.3.18/compress.c:598-616 | afterwards the contexts from predicted down have learned the byte and all links are complete, on any data |
| Compression.RangeCoder.DecodeByte | enet-1.3.18/compress.c:522-616 | decodes exactly the next byte, and the arena then tells the same model as the encoder's |
| Compression.RangeCoder.Decompress | enet-1.3.18/compress.c:498-627 | safe and terminating on every input; on the code of an input it returns that input, or 0 if it exceeds the limit |
| Compression.RoundTrip | enet-1.3.18/compress.c:246-627 | what one coder reads and compresses another decompresses, with no length or end symbol in the stream; that is the concatenated buffers exactly if no buffer but the first is empty |
| UniqueDecoding.FirstByteTold | enet-1.3.18/compress.c:286-329 | equal codes start with the same byte, whichever contexts it escaped from |
| UniqueDecoding.EndTold | enet-1.3.18/compress.c:559-569 | the end of a code never looks like one more byte |
| UniqueDecoding.UniquelyDecodable | enet-1.3.18/compress.c:246-342 | no two inputs have the same code |
| UniqueDecoding.CodeOfNothing | enet-1.3.18/compress.c:246-342 | only the empty input has the empty code, which compress reports like a failure |
| ModelSynchronisation.SymbolContext | enet-1.3.18/compress.c:286-336 | every symbol stands for one history, as the symbol of its last byte in the context of the bytes before |
| ModelSynchronisation.ArenasAgree | enet-1.3.18/compress.c:159-199 | two arenas that tell the same model are equal up to a renaming of indices: contexts, counts, escapes, totals, parent links, and the search trees with their left and right links and sums |
| SequenceNumbers.RelativeWindowExact | enet-1.3.18/peer.c:612-617 | the receiver's window arithmetic on 16 bits is exact for the first number from its position on with that form |
| SequenceNumbers.UnwireOld | enet-1.3.18/peer.c:868-876 | a number that has been passed is taken for the one 65536 later |
| SequenceNumbers.OldLooksFar | enet-1.3.18/peer.c:868-871 | ... and is outside the windows, which is how it is recognised, exactly while it is at most nine windows back |
| SequenceNumbers.CompareOnWire | enet-1.3.18/peer.c:884-903 | the nested comparisons of the queue search decide which of two numbers is further around the circle |
| ReliableReceiver.Channel.FindPlace | enet-1.3.18/peer.c:884-904 | finds the place behind the last queued number that is no further ahead, and whether it is the same number |
| ReliableReceiver.Channel.Dispatch | enet-1.3.18/peer.c:807-844 | delivers the complete commands that come next, up to the first gap, and no others |
| ReliableReceiver.Channel.QueueIncoming | enet-1.3.18/peer.c:861-1009 | stores, discards or refuses: discarded exactly outside the windows, at the position itself, when already queued, or when disconnecting later |
| ReliableReceiver.Channel.HandleSendReliable | enet-1.3.18/protocol.c:446-466 | the whole new state and the result for every message; that a good one is taken is WholeAccepted |
| ReliableReceiver.Channel.HandleSendFragment | enet-1.3.18/protocol.c:536-645 | the whole new state and the result for every fragment, however malformed |
| ReliableReceiver.Channel.QueueAcknowledgement | enet-1.3.18/peer.c:604-620 | acknowledgements are held back exactly seven and eight windows ahead |
| Reassembly.FilledOk | enet-1.3.18/protocol.c:624-638 | fragmentsRemaining stays the number of clear bits |
| Fragmentation.Partition | enet-1.3.18/peer.c:144-173 | the fragments of a packet are not empty and cover it without gap or overlap |
| Fragmentation.FilledAgrees | enet-1.3.18/protocol.c:624-638 | entering any fragment, new or duplicate, touches no other fragment's bytes |
| Fragmentation.AnyOrder | enet-1.3.18/protocol.c:586-642 | in any order, with any duplicates, fragmentsRemaining is 0 exactly when every fragment has come, and then the buffer is the packet |
| ReliableDelivery.NextPacket | enet-1.3.18/peer.c:815-830 | a complete command that is next on the wire is the next packet sent |
| ReliableDelivery.DispatchedInv | enet-1.3.18/peer.c:807-844 | dispatch keeps the queue sorted and made of packets sent, and forgets nothing accepted |
| ReliableDelivery.ReceivesWhole | enet-1.3.18/peer.c:861-904 | one unfragmented packet, new or old, keeps the receiver's invariant and is accepted unless it is outside the windows |
| ReliableDelivery.ReceivesFragment | enet-1.3.18/protocol.c:536-645 | so does one fragment, in every state of the receiver |
| ReliableDelivery.WholeAccepted | enet-1.3.18/protocol.c:446-466 | a timely unfragmented packet ahead of the position and not outside the windows is accepted and acknowledged if there is room, also behind a gap |
| ReliableDelivery.FragmentAccepted | enet-1.3.18/protocol.c:536-645 | so is a fragment, and one of a packet that is queued already even when there is no room |
| ReliableDelivery.TransmitWindows | enet-1.3.18/protocol.c:1455-1466 | entering a window leaves everything outstanding within the last seven |
| ReliableDelivery.SomeAcknowledged | enet-1.3.18/protocol.c:1455-1466 | ... and requires an acknowledgement from the window before |
| ReliableDelivery.AcknowledgeKeeps | enet-1.3.18/protocol.c:220-292 | the 16 bits of an acknowledgement pick out the one outstanding command it is for, and that was accepted |
| ReliableDelivery.StepKeeps | enet-1.3.18/protocol.c:1099-1221 | every step of sender, receiver and network keeps the joint invariant |
| ReliableDelivery.DeliveredInOrder | enet-1.3.18/peer.c:807-844 | in every run with a timely network the packets delivered are the first packets sent, each once and in order |
| ReliableDelivery.AcknowledgedImpliesAccepted | enet-1.3.18/peer.c:609-620 | in every run with a connected receiver a command leaves the sender only when the receiver has it |
| ReliableDelivery.WithinSevenWindows | enet-1.3.18/protocol.c:1455-1466 | in every run the sender is at most seven windows ahead of the receiver |
| ReliableDelivery.PositionMoves | enet-1.3.18/peer.c:815-830 | in every run a step moves the receiver on by seven windows at most |
| ReliableDelivery.AllAcceptedAllDelivered | enet-1.3.18/peer.c:815-830 | in every run, once every command sent has been accepted, every packet has been delivered |
| ReliableDelivery.ReceiveCommand | enet-1.3.18/protocol.c:1099-1221 | the receiver's program, from a handler to the decision to acknowledge, takes exactly the step of the system |
| ReliableLimits.LaterAcknowledgesWhatItDrops | enet-1.3.18/peer.c:858-859 | in DISCONNECT_LATER an unfragmented packet is acknowledged and lost |
| ReliableLimits.LaterWhole | enet-1.3.18/peer.c:858-859 | that happens to exactly the packets it does not have that are less than seven windows ahead |
| ReliableLimits.LaterFragment | enet-1.3.18/protocol.c:617-621 | it does not happen to fragments |
| ReliableLimits.RecognisedAsOld | enet-1.3.18/protocol.c:561-568 | a fragment of a delivered packet is recognised as old exactly while the packet starts at most nine windows back |
| ReliableLimits.RetransmissionsAreYoung | enet-1.3.18/protocol.c:561-568 | retransmissions always are, if no packet spans more than three windows |
| ReliableLimits.RetransmissionTakenForNew | enet-1.3.18/protocol.c:561-568 | without that limit the retransmission of an outstanding fragment can be taken for a new packet |
| ReliableLimits.AcknowledgedAndLost | enet-1.3.18/protocol.c:536-645 | a whole run in which that happens, with every datagram less than ten windows old by its own number: a later packet is acknowledged, forgotten by the sender and never accepted |
| ReliableLimits.NothingDelivered | enet-1.3.18/peer.c:815-830 | and from then on nothing arrives that makes the receiver deliver anything, unless it carries the number of the stray fragment |
| ReliableSizes.NeverDelivered | enet-1.3.18/peer.c:123-134 | in no run with a timely network is a packet delivered whose last number lies more than seven windows behind what comes before it |
| ReliableSizes.CanBeDelivered | enet-1.3.18/peer.c:123-134 | every other packet can be delivered: from any state with nothing under way there is a run that does it |
| ReliableSizes.WholeCanBeDelivered | enet-1.3.18/peer.c:107-116 | and every unfragmented packet: from any state with nothing under way there is a run that delivers it |
| ReliableSizes.FirstTooLong | enet-1.3.18/peer.c:125-134 | for the first packet of a channel the limit is 32767 fragments, where 1048576 are accepted |
| WindowMask.MaskBits | enet-1.3.18/protocol.c:1459-1461 | the shifted masks meet the bits exactly if one of ten windows, counted around, is in use |
| SendLedger.CounterIsSize | enet-1.3.18/protocol.c:1497-1499 | reliableWindows[w] is the number of outstanding numbers in window w, and its bit tells whether there are any |
| SendLedger.BlockedExactly | enet-1.3.18/protocol.c:1455-1462 | the test before a new window decides on the outstanding numbers themselves |
| SendLedger.QueueKeeps | enet-1.3.18/peer.c:636-722 | queueing keeps the ledger |
| SendLedger.TransmitReliableKeeps | enet-1.3.18/protocol.c:1495-1519 | transmission keeps the ledger |
| SendLedger.ExpireKeeps | enet-1.3.18/protocol.c:1387-1396 | a timeout keeps the ledger, retransmissions staying in front |
| SendLedger.AcknowledgeSentKeeps | enet-1.3.18/protocol.c:252-289 | an acknowledgement of a sent command keeps the ledger |
| SendLedger.AcknowledgeQueuedKeeps | enet-1.3.18/protocol.c:241-289 | so does one for a command that waits to be sent again |
| SendLedger.BeginsKeeps | enet-1.3.18/protocol.c:1454-1506 | what transmission does on a channel is a run of the system's steps, and keeps the invariant between the peers |
| Sending.SendingPeer.SetupOutgoing | enet-1.3.18/peer.c:636-703 | the number each kind of command gets, control commands included, what becomes of every counter, and the queue the command joins |
| Sending.SendingPeer.SendPacket | enet-1.3.18/peer.c:106-222 | a packet becomes consecutive commands that carry its fragments in order and hold its references, sent reliably, unreliably or out of sequence as flags, length and the unreliable count decide; the unreliable count goes up by one and never past 65535; all commands fit a datagram |
| SendingOrder.SendsInOrder | enet-1.3.18/peer.c:134-145 | whatever a channel is asked to send, its unreliable packets are numbered in the order of sending within 16 bits |
| Sending.SendingPeer.FindSentReliable | enet-1.3.18/protocol.c:195-218 | stopping at the first command never sent misses nothing |
| Sending.SendingPeer.RemoveSentReliable | enet-1.3.18/protocol.c:220-292 | removes exactly one transmitted command with the number and channel if there is one in any of the queues, returns its kind, and does nothing otherwise; nextTimeout is then that of the first command left |
| Sending.SendingPeer.CheckTimeouts | enet-1.3.18/protocol.c:1351-1407 | exactly the expired commands go back to the front of their queues, in order, and are counted as lost; reliableDataInTransit never passes below zero; and the peer is given up exactly when one of them has been silent for too long |
| Sending.GivesUpByDefault | enet-1.3.18/protocol.c:1374-1382 | with the limits every peer starts with, silence ends a connection after thirty seconds, or after five once a command has been sent six times |
| Sending.EarliestMeans | enet-1.3.18/protocol.c:1370-1372 | earliestTimeout is the time of the oldest expired transmission, across all checks, if none was at clock value 0 |
| Sending.DueExactly | enet-1.3.18/protocol.c:1630-1632 | for times less than a day apart, comparing with nextTimeout is the same as asking whether the first command has expired |
| Sending.SendingPeer.RemoveSentUnreliable | enet-1.3.18/protocol.c:161-193 | releases every reference of the unreliable commands just sent |
| Sending.SendingPeer.Pack | enet-1.3.18/protocol.c:1558-1583 | packetSize stays 4 plus the sum of the buffers and within the mtu, commands within 32, buffers within 65 |
| Sending.SendingPeer.SendAcknowledgements | enet-1.3.18/protocol.c:1298-1349 | acknowledgements go out in order as far as there is room |
| Sending.SendingPeer.SendUnreliableHead | enet-1.3.18/protocol.c:1521-1557 | sends one unreliable command, or drops it and exactly those that follow with its numbers, as the throttle counter says |
| Sending.SendingPeer.DropPacket | enet-1.3.18/protocol.c:1528-1550 | drops exactly the first command and those that follow with its numbers |
| Sending.SendingPeer.CheckOutgoing | enet-1.3.18/protocol.c:1409-1597 | keeps ledger and limits; every first transmission was allowed by the windows; what is packed leaves in the order of queueing; the data in transit stays within its limit; if it stops, the next command does not fit, and otherwise what is left waits for a window or for data in transit |
| Sending.InTurnMore | enet-1.3.18/protocol.c:1426-1444 | taking the older of the two heads keeps both queues and what has been packed in the order of queueing, for times less than a day apart |
| Sending.SendingPeer.InTransitBounds | enet-1.3.18/protocol.c:1468-1472 | the limit on data in transit is the share of the window that the throttle leaves, and at least an mtu |
| Sending.ResentMore | enet-1.3.18/protocol.c:1599-1742 | what each step of sending keeps holds of all of them together: a command queued or sent is still queued, or sent again |
| Sending.SendingPeer.SendPass | enet-1.3.18/protocol.c:1610-1655 | a pass that asks to continue has made progress, pings included |
| Sending.SendingPeer.SendOutgoing | enet-1.3.18/protocol.c:1599-1742 | the passes come to an end, and then nothing is left that may be sent now; no reliable command is lost on the way; the peer is given up exactly if a check was due and hopeless at entry; if it was due and is not given up, every expired command has been sent once more or is held back, with its timeout doubled, nothing expired is left among the sent ones, and packetsLost has grown by their number; an idle peer that is connected is pinged exactly when a ping is due |
| UnreliableQueues.UnreliableQueue.Dispatch | enet-1.3.18/peer.c:724-805 | the splicing loop delivers exactly the unsequenced and the complete current commands it reaches, and drops exactly what has been overtaken |
| UnreliableQueues.UnreliableQueue.RemoveIncoming | enet-1.3.18/peer.c:278-307 | removes everything but the excluded command |
| UnreliableQueues.UnreliableQueue.FindSpot | enet-1.3.18/peer.c:914-945 | finds the place behind the last queued command that is no further ahead, by reliable and then by unreliable number, and whether it has the same numbers |
| UnreliableQueues.UnreliableQueue.QueueUnreliable | enet-1.3.18/peer.c:861-1009 | stores, discards or refuses any sequenced unreliable command, of whatever number, and dispatches |
| UnreliableQueues.UnreliableQueue.HandleSendUnreliable | enet-1.3.18/protocol.c:514-534 | the whole new state and the result for every packet |
| UnreliableQueues.UnreliableQueue.HandleSendUnreliableFragment | enet-1.3.18/protocol.c:647-763 | the whole new state and the result for every fragment, however malformed; that a good one is taken is FragmentTaken |
| UnreliableQueues.UnreliableQueue.QueueUnsequenced | enet-1.3.18/peer.c:948-950 | unsequenced commands go in front and are dispatched |
| UnreliableQueues.UnreliableQueue.AdvanceReliable | enet-1.3.18/peer.c:831-843 | the reliable position moves on and releases what waited for it |
| UnreliableDispatch.TestsExact | enet-1.3.18/peer.c:738-770 | the tests on 16-bit numbers are exact for commands nearby |
| UnreliableDispatch.ExcludedStays | enet-1.3.18/peer.c:804-804 | an incomplete packet just queued is still there after the dispatch, to be filled |
| UnreliableDispatch.DispatchSettles | enet-1.3.18/peer.c:724-805 | after a dispatch the queue is sorted, and what is not waiting is incomplete and ahead of the last delivery |
| UnreliableDispatch.DispatchHistory | enet-1.3.18/peer.c:724-805 | deliveries go on in order, complete, and only at the channel's current reliable number |
| UnreliableDelivery.LateIgnored | enet-1.3.18/peer.c:867-871 | a packet or fragment that arrives behind the channel's reliable position, but not by ten windows, changes nothing |
| UnreliableDelivery.StepKeeps | enet-1.3.18/peer.c:846-1009 | every arrival, new, late or repeated, and every move of the reliable position keeps all of this, and everything queued or delivered is what was sent under its numbers, as far as it has come |
| UnreliableDelivery.PositionMoves | enet-1.3.18/peer.c:831-843 | the moves of the reliable position that are considered include those of every run of the reliable channel |
| UnreliableDelivery.DeliveredInOrder | enet-1.3.18/peer.c:724-805 | in every run of timely traffic every packet delivered is one that was sent, whole and unchanged, and the deliveries are in the order of sending |
| UnreliableDelivery.DeliveredWhenCurrent | enet-1.3.18/peer.c:738-744 | in every such run a packet is delivered only while its reliable number is the channel's |
| UnreliableDelivery.UnsequencedAtOnce | enet-1.3.18/peer.c:735-736 | in every such run an unsequenced packet is delivered in the step it arrives in, if there is room |
| UnreliableDelivery.CurrentAtOnce | enet-1.3.18/peer.c:738-744 | so is a whole packet of the current reliable number that is newer than the last delivery |
| UnreliableDelivery.FragmentTaken | enet-1.3.18/protocol.c:647-763 | a fragment of a packet that is queued leaves its piece there; and if it was the last one missing, and the packet has the current reliable number and is newer than the last delivery, the packet is delivered at once |
| UnreliableDelivery.FutureKept | enet-1.3.18/peer.c:763-770 | a whole packet of a later reliable number is kept |
| UnreliableDelivery.ReleasedInTime | enet-1.3.18/peer.c:831-843 | and is delivered when that number becomes the current one, along with every other complete one of that number |
| UnreliableDelivery.StillWaiting | enet-1.3.18/peer.c:763-770 | what waits for a later number still waits |
| UnreliableDelivery.LapAhead | enet-1.3.18/peer.c:910-912 | a run in which the order is lost to a packet that is a lap ahead |
| UnreliableDelivery.TenWindowsLate | enet-1.3.18/peer.c:867-871 | a run in which it is lost to a packet that arrives ten windows late |
| Unsequenced.UnsequencedWindow.HandleSendUnsequenced | enet-1.3.18/protocol.c:484-511 | the verdict and the new window for every group number |
| Unsequenced.NewTaken | enet-1.3.18/protocol.c:485-511 | a group of the current block or of the 31 that follow is accepted exactly if it is new and can be kept, and the bitmap moves on to it |
| Unsequenced.LateIgnored | enet-1.3.18/protocol.c:487-491 | a group from before the window is ignored exactly if it is at most 32768 behind |
| Unsequenced.AtMostOnce | enet-1.3.18/protocol.c:484-511 | in every run whose datagrams are in time no group is accepted twice |
| Unsequenced.AcceptedTwice | enet-1.3.18/protocol.c:484-511 | a run in which a group that comes again 40960 groups later is accepted twice |
| Hosts.Host.ChangeState | enet-1.3.18/protocol.c:35-44 | the counts follow the state |
| Hosts.Host.OnDisconnect | enet-1.3.18/peer.c:364-374 | the counts never pass below zero |
| Hosts.Host.ResetPeer | enet-1.3.18/peer.c:381-436 | a reset slot and its counts |
| Hosts.Host.NotifyConnect | enet-1.3.18/protocol.c:119-133 | state and counts after a completed connection |
| Hosts.Host.NotifyDisconnect | enet-1.3.18/protocol.c:136-159 | state and counts after a failure |
| Hosts.Host.HandleBandwidthLimit | enet-1.3.18/protocol.c:774-805 | the count of limited peers follows the new limit |
| Hosts.Host.HandleDisconnect | enet-1.3.18/protocol.c:821-848 | state and counts after DISCONNECT, in every state |
| Hosts.DisconnectCompletes | enet-1.3.18/protocol.c:1195-1222 | a DISCONNECT is acknowledged exactly by a peer that was connected or has been asked before, nothing else is acknowledged any more, and at both ends the connection is over |
| Hosts.Host.HandleAcknowledged | enet-1.3.18/protocol.c:919-944 | state and counts after an acknowledgement |
| Hosts.Host.DispatchState | enet-1.3.18/protocol.c:60-86 | state and counts when the application hears of it |
| Hosts.Host.Disconnect | enet-1.3.18/peer.c:537-572 | state and counts after a request to disconnect |
| Hosts.Host.DisconnectPeerLater | enet-1.3.18/peer.c:591-602 | ... with commands still to be sent |
| Hosts.Host.DisconnectNow | enet-1.3.18/peer.c:506-528 | ... at once |
| Hosts.Host.Connect | enet-1.3.18/host.c:183-264 | the first free slot is filled and its offer made |
| Hosts.Host.HandleConnect | enet-1.3.18/protocol.c:294-444 | exactly when a CONNECT is refused, and otherwise which slot it gets and what is answered |
| Hosts.Host.HandleVerifyConnect | enet-1.3.18/protocol.c:948-1008 | the answer is taken exactly if connectID and throttle match |
| Handshake.ConnectedAgrees | enet-1.3.18/protocol.c:919-927 | in every run whose acknowledgements belong to the attempt they reach, two connected ends of an attempt have crosswise equal session ids, the client sends to that slot, and throttle and channels agree |
| Handshake.AcknowledgementsKept | enet-1.3.18/protocol.c:1043-1051 | because every acknowledgement of the client's attempt carries its slot and session, and a slot connects only on one that passes the check of the header |
| Handshake.StaleAcknowledgement | enet-1.3.18/protocol.c:352-362 | a run in which an acknowledgement from two attempts ago connects a slot with session ids that differ |
| Handshake.SessionDecides | enet-1.3.18/protocol.c:1043-1051 | in every run, whatever acknowledgement connected the slot, the two ends agree exactly if its session number is the client's |
| Handshake.ChecksumsSuffice | enet-1.3.18/protocol.c:1073-1089 | between hosts that use checksums no acknowledgement reaches another attempt than its own |
| Handshake.ConnectedAgreesWithChecksums | enet-1.3.18/protocol.c:1073-1089 | ... so that two connected ends always agree |
| Handshake.AnswerAgrees | enet-1.3.18/protocol.c:948-1008 | in every run, whatever the acknowledgements, the client agrees with the slot as it was when it gave the answer that was taken, and on connectID, throttle and channels with every slot that holds its attempt |
| Handshake.MtuAgrees | enet-1.3.18/protocol.c:380-389 | the two mtus agree exactly if neither host's is below 576, or both are the same below it |
| Handshake.WindowsMeet | enet-1.3.18/protocol.c:391-435 | in every run each end knows the bandwidths of the other, and its window is the smaller of what its own host may send and what the other may receive |
| Hosts.WindowRange | enet-1.3.18/protocol.c:395-409 | a window is a sixteenth of the bandwidth, in steps of 4096 and between 4096 and 65536 |
| Handshake.MtusApart | enet-1.3.18/protocol.c:380-389 | a run that connects with an mtu of 576 at one end and 500 at the other |
| Handshake.OneSlotPerAttempt | enet-1.3.18/protocol.c:309-332 | in every run, however often a CONNECT is repeated, at most one slot holds it |
| Hosts.BudgetLasts | enet-1.3.18/host.c:400-426 | the shares granted in a pass stay within the budget |
| Hosts.Host.ThrottlePass | enet-1.3.18/host.c:388-426 | a pass of the outgoing half: neither the budget nor the data it is for passes below zero |
| Hosts.Host.ShareOutgoing | enet-1.3.18/host.c:363-446 | a peer is throttled on its own exactly if the first throttle gives it more than it can take; then its limit is the largest that it can take, but at least 1; everyone else gets the common throttle, the largest at which what is left of the data fits what is left of the bandwidth; nobody else changes |
| Hosts.ScaleFalls | enet-1.3.18/host.c:380-417 | throttling a peer on its own never raises the throttle of the others: what it can take is taken off the budget and off the data alike |
| Hosts.LevelRises | enet-1.3.18/host.c:459-462 | the level never falls between passes |
| Hosts.Host.SettlePass | enet-1.3.18/host.c:459-478 | a pass of the incoming half: budget and peer count never pass below zero |
| Hosts.Host.ShareIncoming | enet-1.3.18/host.c:446-499 | the water-filling: a peer keeps its own rate exactly if that is 0 or below the final level, the others share what is left, and all of it fits the bandwidth |
| Hosts.Host.BandwidthThrottle | enet-1.3.18/host.c:338-499 | both halves, when they are due |
| Checksum.TableExact | enet-1.3.18/packet.c:101-135 | every entry of the table is eight bitwise steps |
| Checksum.StepLinear | enet-1.3.18/packet.c:101-135 | the steps are linear, which is why a table of 256 entries is enough |
| Checksum.Crc32 | enet-1.3.18/packet.c:137-156 | the table-driven loop over any buffers gives the bitwise CRC-32 of their concatenation |
| Checksum.CheckValue | enet-1.3.18/packet.c:137-156 | it is the usual CRC-32: the digits 1 to 9 give cbf43926 |
| Checksum.DamageShows | enet-1.3.18/packet.c:137-156 | damage to any one byte shows |
| Checksum.BurstShows | enet-1.3.18/packet.c:137-156 | so does any change of four consecutive bytes |
| Checksum.KeyShows | enet-1.3.18/protocol.c:1081-1088 | a datagram keyed with another connectID does not pass |
| Lists.Insert | enet-1.3.18/list.c:20-32 | refines insertion into a sequence |
| Lists.EndsAtSentinel | enet-1.3.18/list.c:20-32 | inserting in front of the end appends |
| Lists.Remove | enet-1.3.18/list.c:34-41 | refines removal from a sequence |
| Lists.Move | enet-1.3.18/list.c:43-59 | refines moving a stretch of one sequence into another |
| Lists.Size | enet-1.3.18/list.c:61-73 | counts the items |

## Left out

- Sockets, clocks, name resolution, the foreign-function layer: time, datagrams, random numbers and the outcome of sending are inputs or are assumed to succeed.
- Allocation failure, packet callbacks, checksum functions other than CRC-32, interception, byte order of header fields.
- `ENET_CONTEXT_EXCLUSION` in the compressor: the source undefines it.
- Parsing a datagram into commands, and the length checks of the handlers against the received datagram: commands arrive whole.
- Round-trip time estimates, packet-loss statistics, among them the restart of packetsLost every ten seconds, and the packet throttle's reaction to them: single-branch arithmetic.
- `totalWaitingData`: whether a receiver is full is an input of each step.
- `dispatchQueue` and NEEDS_DISPATCH, and the events they produce: deliveries of each channel are one sequence.
- Sending.SendingPeer.CheckOutgoing: does not model the change to DISCONNECTING when the last command of a peer that disconnects later has been sent, nor the contents of the datagram beyond sizes.
- Sending.SendingPeer.SendUnreliableHead: where the throttle drops a packet the source also drops what follows with equal numbers and takes for granted that it has a packet; the model stops at a command without one.
- Sending.SendingPeer.DropPacket: the same.
- Sending.SendingPeer.CheckTimeouts: the power of two of the attempts is unbounded where the source shifts an int.
- Sending.SendingPeer.RemoveSentUnreliable: does not model the disconnect of a peer that disconnects later at its end.
- Sending.SendingPeer.SendAcknowledgements: does not model the change to ZOMBIE with the acknowledgement of a DISCONNECT, nor the fields of the commands.
- Sending.SendingPeer.SendOutgoing: one peer; in the source the passes go over all peers, each of which makes the same progress. Round-trip times of at least one millisecond are required, as measurements never give less.
- Packets as objects: a packet is an identity with a reference count in a map; no aliasing of its data.
- ReliableReceiver.Channel.HandleSendFragment: the fragment bitmap is a sequence of bits, not of 32-bit words; so is the window of Unsequenced.
- UnreliableQueues: in the queue search the source tests the arriving command, not the queued one, for being unsequenced (`peer.c:920`); the model does the same, and no unsequenced command is ever left in the queue to meet it. A pointer to a queued command is its id.
- Hosts.Host.ShareOutgoing: products such as bandwidth times elapsed time are unbounded; the source computes them in 32 bits. Peers whose throttle epochs equal the current time are excluded at entry; epochs are 0 or times of earlier calls, at least a second ago.
- Hosts.Host.ThrottlePass: the same products, unbounded.
- Hosts.Host.ShareIncoming: the same exclusion.
- Hosts.Host.BandwidthThrottle: the BANDWIDTH_LIMIT commands are returned as a list of limits instead of being queued.
- Handshake: one client, with one peer slot; connectIDs of different attempts are distinct, as random numbers are meant to be. Packet throttles reconfigured during a handshake are not modelled, and moves between the states that follow a connection are free as long as none leads back to it.
- Handshake.ConnectedAgrees: assumes `OwnAcknowledgements`, which is sufficient; SessionDecides is the condition on the acknowledgement itself.
- Checksum.Crc32: the final conversion to network byte order is the identity.
- Compression.RangeCoder.Compress: requires that reading the buffers is defined, as the source has no meaning otherwise.
