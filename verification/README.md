# TailTalk protocol cores in Dafny

TailTalk's protocol state machines have no clock, sockets or async runtime: they are fed packets,
time and calls, and drained of packets and events. This project models them in that shape and proves
what they promise over whole conversations.

Each core comes in three layers. A `*Spec` module says what every operation does, as functions on
values. A class writes the operation as the source does, fields updated in place and loops where the
source has them, and each method is proved to compute what the specification says. The remaining
modules prove the protocol properties about the specification: over any sequence of calls and
packets, over a network that loses, duplicates and reorders, and across layers.

| files | what they are about |
|---|---|
| `AdspSpec`, `AdspEndpoint` | the ADSP endpoint: three-way open, sliding window, retransmission, attentions |
| `AdspStream`, `AdspNetwork`, `AdspEom`, `AdspLedger` | the byte stream: the receiver, the sender's books, two endpoints over a network |
| `AdspAttention`, `AdspQuiescence`, `AdspRekeying`, `AdspTimers` | attentions, termination of exchanges, timers |
| `AdspResend`, `AdspLine`, `AdspFlow`, `AdspHearing`, `AdspHandshake` | what must be sent and delivered: retransmission, two endpoints on a line that loses nothing, recovery after any loss, opening and closing |
| `AdspWindow`, `AdspOffers`, `AdspMemory`, `MessageQueue`, `QueueProgress` | the receive queue in front of the endpoint, and how much it can hold |
| `AtpSpec`, `AtpEndpoint`, `AtpReassembly`, `AtpOnce`, `AtpSystem`, `AtpRequestor`, `AtpResponder`, `AtpNetwork`, `AtpDelivery`, `AtpTimers` | ATP transactions |
| `PapSpec`, `PapServer`, `PapRuns`, `PapReplies`, `PapPrinting`, `PapProgress` | the PAP printer server over two ATP endpoints |
| `PortSpec`, `PrinterPort`, `PortRuns`, `PortProgress` | the byte port behind a PAP printer |
| `StyleWriterSpec`, `StyleWriter`, `StyleWriterRuns`, `StyleWriterReplies` | the StyleWriter role on top of ADSP |
| `PackBits` | run-length and hexadecimal page encoding |
| `HfsForks`, `HfsCatalog`, `HfsLayout` | HFS forks and B-tree walks |
| `Words`, `MapSums` | machine words, division, ordered keys, sums over maps |

## Modelling choices

- Sequence numbers, windows and identifiers are integers in the range of their Rust type; every wrap
  and truncation that can occur is written out (`Add32`, `Sub32`, `AsI32`, `% 0x100`). Time and lengths
  are unbounded.
- A packet in a network carries stamps of where its sender stood when it left. The code never reads
  them; the theorems use them to relate 32-bit sequence numbers to unbounded stream positions.
- A network is a set of packets that only grows: losing a packet is never delivering it, duplicating
  is delivering it again, and any order is possible. The ADSP network delivers a packet within half a
  turn of the sequence space of where it was sent, the assumption the protocol itself makes.
- In the two-endpoint ADSP runs each ConnID is used for one connection, a side dials at most once,
  less than half a turn is unacknowledged, and no byte is in flight behind an end-of-message in flight:
  by `FaithfulIffNoByteAfterEom` these are exactly the runs whose flight buffers say what is in flight.
  A sender that writes nothing behind an unacknowledged end-of-message keeps to this whatever arrives
  (`WriteGuardSuffices`), and a sender of plain bytes always does.
- What must happen is proved over a second kind of network, a line that keeps order and loses nothing:
  safety alone is met by an endpoint that sends nothing. `Quiet` means that nothing is on its way, and
  every line goes quiet by itself (`DrainsEnd`, `LineSettles`). Recovery takes any state the lossy network
  can reach, drops everything on its way, and goes on over such a line.
- Random draws (connection ids, call-back handles) are parameters of the operation that makes them.
- A search for a free ATP transaction id never ends when all 65535 are taken. The methods ask for as
  many free ids as they can use; the specification leaves the step out when there is none.

## Where the code and its comments differ

- `tailtalk-core/src/adsp.rs:547-550` says the third leg of the handshake is never answered. The branch
  that moves a connection to a new key (568-602) answers it, and the answer can move one at the other
  end. `ThirdLegAnsweredOnlyByRekeying` gives the exact condition; `PlaysEnd` and `ExchangesEnd` show
  that no such exchange goes on for ever.
- The flight buffer stores bytes and no end-of-message, but the sequence space counts both
  (`tailtalk-core/src/adsp.rs:766-771`, 885-891). It says what is in flight exactly as long as no byte
  is cut while a mark is in flight (`CutAlignedIff`, and `FaithfulIffNoByteAfterEom` over whole runs).
  Otherwise a retransmission can hand a byte over twice (`LateOriginalIsDeliveredTwice`), and an
  acknowledgement alone can drop a byte that is then never resent, with a backlog of zero
  (`AckedMarkDropsAByte`).
- A failed attention does not advance its sequence number (`tailtalk-core/src/adsp.rs:432-436`), so the
  next one is taken for a repetition, and acknowledged without being delivered, exactly when the one
  given up was heard: `AckedMeansHeard`, `SwallowedAfterFailure`.
- `tailtalk-core/src/atp.rs:314` marks a branch as impossible. Some order of arrival reaches it, and
  closes the request with no event, exactly when the request's bitmap has a bit set and the reply has at
  least two packets more than it has bits: `HoleLosesRequest`. With one packet more the request may be
  cut short but always answers; `FaithfulIffFits` is the exact condition for replies to arrive whole.
- The same branch can strand a PAP session. A pull is taken up again when its transaction fails
  (`tailtalk-core/src/pap.rs:434-444`), but a transaction closed with no event neither answers nor fails: the
  session waits for it until it is closed (`LostPullStalls`). That one packet, which `LosesPull` spells out, is
  the only way an outstanding pull is left without a transaction (`CallKeepsPull`, `PullsAreWaitedFor`).
- A response is matched by transaction id alone; where it came from is not checked
  (`tailtalk-core/src/atp.rs:285-288`). One packet from any address closes a request with whatever data
  it carries: `ForeignAnswerIsTaken`. `ResponseIsTheAnswer` survives responses from elsewhere as long as
  those that meet an open request are packets the responder sent to the requestor.
- A StyleWriter job whose call-back fails to open ends with no `JobEnded`
  (`tailtalk-core/src/stylewriter.rs:628-632`): `JobsBalance` counts those.
- The handshake timeout of the StyleWriter role and the inactivity timeout of the PAP server are strict,
  while their deadlines are not: a poll at the very deadline leaves the deadline where it was
  (`DeadlineStaysOnlyWhenExact`, `SessionTimersMoveOn`).
- Reading a fork stops at the first empty extent slot, while the search for overflow records counts all
  slots (`hfs-reader/src/lib.rs:183-185`, 493-512). `WholeFork` gives the exact condition for a fork to
  be read in full.
- A B-tree record that starts at the very end of its node is indexed past its end
  (`hfs-reader/src/lib.rs:256`, 456). `WalkCatalog` and `ParseOverflow` report that outcome as `broken`.

## Model

| member | source | states |
|---|---|---|
| `AdspNetwork.StreamSafety` | `tailtalk-core/src/adsp.rs:714-903` | In every state of every run over a network that loses, duplicates and reorders, what each application was handed is a prefix of what the other wrote, end-of-message marks included |
| `AdspNetwork.EmptyBacklogMeansDelivered` | `tailtalk-core/src/adsp.rs:220-232` | While a connection lives, a transmit backlog of zero means the peer was handed every byte ever written; only trailing end-of-message marks can be outstanding |
| `AdspNetwork.RunSwaps` | `tailtalk-core/src/adsp.rs:313-463` | Exchanging the two sides of a run gives a run, so what is stated of one side in every run holds of the other |
| `AdspNetwork.WriteGuardSuffices` | `tailtalk-core/src/adsp.rs:797-876` | While nothing written comes after an end-of-message not yet acknowledged, no packet whatever can bring a byte into flight behind a mark in flight, and no write that keeps to the same can either |
| `AdspNetwork.ShortRunsAreTimely` | `tailtalk-core/src/adsp.rs:720-745` | The packet lifetime asked of the network is no restriction while each side has moved less than half of the 32-bit sequence space |
| `AdspNetwork.RunKeepsInv` | `tailtalk-core/src/adsp.rs:313-369` | The connection invariant (honest packets, balanced books, aligned flight buffer) holds after any run of writes, attentions, window changes, timer ticks, closes and deliveries |
| `AdspNetwork.ActAdvances` | `tailtalk-core/src/adsp.rs:313-463` | Each single action of either side keeps that invariant for its side |
| `AdspStream.ReceiverFollowsTape` | `tailtalk-core/src/adsp.rs:720-745` | Any slices of a tape of bytes and end-of-message marks, in any order with any gaps, overlap and repetition and across wraparound, are delivered as exactly the tape from the start to the receive sequence |
| `AdspStream.ReceiveSlice` | `tailtalk-core/src/adsp.rs:720-745` | One packet delivers exactly the part of the tape not yet seen and moves the receive sequence to its end, or changes nothing |
| `AdspStream.PumpKeeps` | `tailtalk-core/src/adsp.rs:797-876` | The pump loop keeps the sender's books, never moves the oldest unacknowledged position, and sends only slices of what was written |
| `AdspStream.CutAlignedIff` | `tailtalk-core/src/adsp.rs:810-840` | A cut keeps an exact flight buffer exact if and only if it cuts no byte while an end-of-message is in flight |
| `AdspStream.TakeAckKeeps` | `tailtalk-core/src/adsp.rs:759-776` | An acknowledgement moves the oldest unacknowledged position to the acknowledged one exactly when that is ahead and was sent; the flight buffer stays aligned |
| `AdspStream.ResendFromKeeps` | `tailtalk-core/src/adsp.rs:878-903` | Retransmission sends slices of what was written, as long as the flight buffer is aligned |
| `AdspStream.HandleDataKeeps` | `tailtalk-core/src/adsp.rs:714-776` | A data or control packet leaves an aligned sender aligned, and everything sent in answer is a slice of what was written |
| `AdspEom.FaithfulIffNoByteAfterEom` | `tailtalk-core/src/adsp.rs:759-903` | Over any run of writes, packets, advice and timers, whatever is acknowledged: the flight buffer says what is in flight at every moment if and only if at no moment a byte is in flight behind an end-of-message in flight |
| `AdspEom.NothingAckedIffNoByteAfterEom` | `tailtalk-core/src/adsp.rs:810-903` | While nothing is acknowledged the end of the run decides alone: the flight buffer is right if and only if no byte sent comes after an end-of-message |
| `AdspEom.LateOriginalIsDeliveredTwice` | `tailtalk-core/src/adsp.rs:885-891` | When one does, a retransmission followed by the late original hands the receiver a byte twice and never the end of the message |
| `AdspEom.AckedMarkDropsAByte` | `tailtalk-core/src/adsp.rs:766-771` | With no retransmission at all: acknowledging the first packet, byte and mark, leaves a backlog of zero and a byte that is unacknowledged and never resent |
| `AdspLedger.LedgerOverRuns` | `tailtalk-core/src/adsp.rs:236-248` | Over any run and any packets from the peer: the oldest unacknowledged position never passes the cut position, the flight buffer is no longer than what is in flight, completed plus pending writes are the submitted ones, and where no end-of-message was written the flight buffer is exactly the bytes in flight |
| `AdspLedger.StepKeepsLedger` | `tailtalk-core/src/adsp.rs:759-876` | Each step keeps the books, moves the oldest unacknowledged position only forward, and never uncuts |
| `AdspLedger.StepAligned` | `tailtalk-core/src/adsp.rs:759-903` | One step against any peer keeps an exact flight buffer exact if and only if what is then in flight has no byte behind an end-of-message |
| `AdspLedger.TakeAckKeepsLedger` | `tailtalk-core/src/adsp.rs:759-776` | Any acknowledgement, honest or not, leaves the books balanced |
| `AdspLedger.CutsStayInWindow` | `tailtalk-core/src/adsp.rs:812-840` | A packet that carries bytes leaves at most the peer's window and one place for an end-of-message in flight, and holds at most one packet's bytes |
| `AdspSpec.PumpStepShrinks` | `tailtalk-core/src/adsp.rs:797-876` | The pump loop ends: every turn finishes a write or cuts at least one byte |
| `AdspLedger.RetriesSinceProgress` | `tailtalk-core/src/adsp.rs:759-776` | Over any run and against any peer the retry count is the number of timeouts since something was last acknowledged, up to 255: a peer that acknowledges anything in between is never given up for the timeouts before |
| `AdspLedger.TimedFromLastSending` | `tailtalk-core/src/adsp.rs:797-903` | Over any run and against any peer the retransmission timer runs from the last time data went out in answer to something, and is due if and only if bytes are in flight and the timeout has passed; what a write sends at once does not start it |
| `AdspTimers.OpenWaits` | `tailtalk-core/src/adsp.rs:199-218` | The first retry of an open is due when its interval has passed since it was sent, and not before |
| `AdspTimers.AttentionWaits` | `tailtalk-core/src/adsp.rs:262-284` | So is the first retry of an attention |
| `AdspResend.ResendSpells` | `tailtalk-core/src/adsp.rs:885-902` | What is sent again spells the whole flight buffer from the oldest unacknowledged byte, piece after piece, each asking for an acknowledgement, none empty and all but the last full |
| `AdspResend.TimerResends` | `tailtalk-core/src/adsp.rs:442-462` | That is all the retransmission timer puts out, while it does not give up |
| `AdspResend.AdviceResends` | `tailtalk-core/src/adsp.rs:354-358` | And what advice puts out, behind what its acknowledgement lets go |
| `AdspResend.WriteSpells` | `tailtalk-core/src/adsp.rs:236-248` | A write of plain bytes that fits the window goes out at once, whole, in as few packets as hold it |
| `AdspResend.ResendRepairs` | `tailtalk-core/src/adsp.rs:878-903` | A receiver that stands at the oldest unacknowledged byte takes exactly the flight buffer from what is sent again, and has then received all that was sent if and only if no end-of-message was in flight |
| `AdspLine.AskedIsAnswered` | `tailtalk-core/src/adsp.rs:747-755` | A packet of the stream that asks is answered to the connection's own end with a bare acknowledgement of all that was received, that packet included, and of the room there is |
| `AdspFlow.QuietLineHasDelivered` | `tailtalk-core/src/adsp.rs:714-876` | Lossless law: two ends just connected write, send attentions and change windows as they like over a line that keeps order; whenever nothing is on its way each has been handed everything the other sent and it is all acknowledged, and with an open window everything ever written, marks included, with a backlog of zero |
| `AdspFlow.RecoversFromLoss` | `tailtalk-core/src/adsp.rs:442-462` | From any state of the lossy network, everything on its way lost: the next retransmission sets it right, as in the lossless law, if and only if no end-of-message was among what was lost |
| `AdspFlow.DrainsEnd` | `tailtalk-core/src/adsp.rs:714-876` | Left alone a line goes quiet after no more arrivals than the weight of what it holds |
| `AdspFlow.LineSettles` | `tailtalk-core/src/adsp.rs:714-876` | And it can always be drained until it is quiet, so the two laws are never empty |
| `AdspHearing.QuietLineHasHeard` | `tailtalk-core/src/adsp.rs:262-284` | Over such a line, whenever nothing is on its way the attentions heard are exactly those accepted, in order, and each was reported acknowledged |
| `AdspHearing.AttentionsRecover` | `tailtalk-core/src/adsp.rs:420-441` | After any loss one retry of the attention in flight is enough for the same, while no attention was given up |
| `AdspHandshake.HandshakeJoins` | `tailtalk-core/src/adsp.rs:503-619` | A request, the first or a repeated one, that reaches a listener leads in two more packets to a connection both ends agree on, each under the other's id and window, told once to each application |
| `AdspHandshake.RepeatedAnswerConfirmed` | `tailtalk-core/src/adsp.rs:553-566` | An answer repeated because its confirmation was lost is confirmed again and changes nothing |
| `AdspHandshake.NewIdTakesConnection` | `tailtalk-core/src/adsp.rs:568-602` | A peer that answers under a new id takes the connection with it, whole, under the new key alone |
| `AdspHandshake.CloseReaches` | `tailtalk-core/src/adsp.rs:294-311` | A close ends the connection at both ends, and the other application is told once |
| `AdspAttention.AttentionsAtMostOnce` | `tailtalk-core/src/adsp.rs:644-690` | Under loss, duplication and reordering every attention accepted is delivered at most once |
| `AdspAttention.AttentionsInOrderUntilFailure` | `tailtalk-core/src/adsp.rs:262-284` | Until an attention fails, those heard are a prefix of those accepted, and no more were reported acknowledged than were heard |
| `AdspAttention.AckedMeansHeard` | `tailtalk-core/src/adsp.rs:696-712` | AttentionAcked is raised for a message already delivered if and only if none of the attentions given up under its sequence number was delivered; with no failure since the last acknowledgement it always is |
| `AdspAttention.SwallowedAfterFailure` | `tailtalk-core/src/adsp.rs:420-441` | After the timer gives an attention up the next one goes out under the same sequence: it is new to the peer if and only if the one given up was not heard, and otherwise acknowledged without being delivered |
| `AdspQuiescence.DeliveryCosts` | `tailtalk-core/src/adsp.rs:313-369` | Handling a packet never adds as much weight in queued writes and packets as the packet took away, but for a third leg that re-keys a connection, which breaks even |
| `AdspQuiescence.EachDeliveryShrinks` | `tailtalk-core/src/adsp.rs:313-369` | Each delivery between two endpoints lowers the weighted sum of pending bytes and packets in transit, unless it is a re-keying third leg, which does not raise it |
| `AdspQuiescence.ExchangesEnd` | `tailtalk-core/src/adsp.rs:538-876` | With no timers and no calls every exchange ends, with any number of connections at each end, after a number of deliveries fixed by its starting weight |
| `AdspQuiescence.OneConnectionExchangesEnd` | `tailtalk-core/src/adsp.rs:538-876` | With one connection every delivery lowers the weight, so an exchange lasts no more deliveries than its starting weight |
| `AdspRekeying.PlaysEnd` | `tailtalk-core/src/adsp.rs:568-602` | Third legs that move connections to new keys for each other cannot do so for ever: however they are delivered, n of them fire only a number of times that n fixes |
| `AdspTimers.DeadlinesMoveOn` | `tailtalk-core/src/adsp.rs:371-463` | After a poll at a time every deadline lies strictly later |
| `AdspTimers.PollAt` | `tailtalk-core/src/adsp.rs:396-463` | What one poll does to each timer, and exactly which failure and close events it raises |
| `AdspTimers.WakeupSpends` | `tailtalk-core/src/adsp.rs:396-463` | A wake-up at or after a deadline uses up some of a finite budget |
| `AdspTimers.DriverRunsEnd` | `tailtalk-core/src/adsp.rs:371-463` | A driver with no input wakes up at most six times for each open and twelve for each connection it started with |
| `AdspTimers.EachTimerFailsOnce` | `tailtalk-core/src/adsp.rs:396-463` | When such a driver has no deadline left, every open failed once, a connection closed once if it had unacknowledged data and otherwise not at all, and an attention failed once, or at most once if its connection went down |
| `AdspMemory.ReceiveMemoryBound` | `tailtalk-net/src/adsp.rs:221-270` | Messages or plain bytes, on a link that loses but does not reorder: the bytes handed over and not yet read never exceed the receive window and one packet |
| `AdspMemory.OffersStay` | `tailtalk-core/src/adsp.rs:747-793` | The bytes acknowledged plus the advertised window never exceed what was read by more than that bound, though acknowledgements carry the window from before the data was counted; marks are acknowledged and add no byte |
| `AdspWindow.PumpStays` | `tailtalk-core/src/adsp.rs:797-876` | In bytes, the pump never cuts past what the last acknowledgement offered, though an end-of-message may pass the window |
| `AdspWindow.UpdateWindow` | `tailtalk-net/src/adsp.rs:265-270` | No connection is offered more than its own queue has room for, some connection is offered exactly that, and less than a packet's room counts as none |
| `AdspEndpointModel.AdspEndpoint.SetRecvWindow` | `tailtalk-core/src/adsp.rs:186-195` | Sets the window; reopening a closed one sends an acknowledgement on every connection in key order |
| `AdspEndpointModel.AdspEndpoint.Connect` | `tailtalk-core/src/adsp.rs:199-218` | Registers a pending open under a fresh handle and sends the request |
| `AdspEndpointModel.AdspEndpoint.TxBacklog` | `tailtalk-core/src/adsp.rs:220-232` | The bytes in flight and still queued; zero for an unknown connection |
| `AdspEndpointModel.AdspEndpoint.Send` | `tailtalk-core/src/adsp.rs:236-248` | Queues the write, numbers it, and pumps without touching the retransmission timer; an unknown connection is an error |
| `AdspEndpointModel.AdspEndpoint.SendAttention` | `tailtalk-core/src/adsp.rs:262-284` | Sends at most one attention at a time; errors for no connection and for one in flight |
| `AdspEndpointModel.AdspEndpoint.Close` | `tailtalk-core/src/adsp.rs:294-311` | Drops the connection and advises the peer |
| `AdspEndpointModel.AdspEndpoint.PumpTurn` | `tailtalk-core/src/adsp.rs:797-876` | One turn of the pump loop, with its four outcomes; `AdspResend.WriteSpells` and `AdspFlow.QuietLineHasDelivered` say what has to come of it |
| `AdspEndpointModel.AdspEndpoint.PumpLoop` | `tailtalk-core/src/adsp.rs:797-876` | The whole loop, which ends |
| `AdspEndpointModel.AdspEndpoint.ReceiveInto` | `tailtalk-core/src/adsp.rs:714-745` | Sequence-checks a packet and delivers what is new in it |
| `AdspEndpointModel.AdspEndpoint.ApplyAck` | `tailtalk-core/src/adsp.rs:759-776` | Takes the peer's window, retires what is acknowledged, and pumps |
| `AdspEndpointModel.AdspEndpoint.HandleStream` | `tailtalk-core/src/adsp.rs:714-757` | Receive, acknowledge, answer if asked, pump |
| `AdspEndpointModel.AdspEndpoint.ResendUnacked` | `tailtalk-core/src/adsp.rs:878-903` | Sends the flight buffer again from the oldest unacknowledged byte, as `AdspResend.ResendSpells` says it must |
| `AdspEndpointModel.AdspEndpoint.HandleAttention` | `tailtalk-core/src/adsp.rs:644-690` | Acknowledges every attention and delivers the one expected next |
| `AdspEndpointModel.AdspEndpoint.HandleAttentionAck` | `tailtalk-core/src/adsp.rs:696-712` | Retires the attention in flight when its sequence number is acknowledged |
| `AdspEndpointModel.AdspEndpoint.HandleOpenRequest` | `tailtalk-core/src/adsp.rs:503-536` | Opens a connection under the peer's id, or acknowledges the existing one again |
| `AdspEndpointModel.AdspEndpoint.HandleOpenAck` | `tailtalk-core/src/adsp.rs:538-619` | Completes an open, repeats the third leg, or moves a connection to the id the peer now uses |
| `AdspEndpointModel.AdspEndpoint.HandleDatagram` | `tailtalk-core/src/adsp.rs:313-369` | Dispatch over every descriptor |
| `AdspEndpointModel.AdspEndpoint.Poll` | `tailtalk-core/src/adsp.rs:396-463` | Open, attention and retransmission timers, in that order |
| `AdspEndpointModel.AdspEndpoint.NextDeadline` | `tailtalk-core/src/adsp.rs:371-394` | The earliest of all timers, or none if and only if no timer is set |
| `AtpReassembly.RoundTrip` | `tailtalk-core/src/atp.rs:171-192` | Data that fits eight packets and the bitmap comes back byte for byte with the user bytes in exactly one response, whatever the order of arrival |
| `AtpReassembly.FaithfulIffFits` | `tailtalk-core/src/atp.rs:180-221` | A reply comes through whole in every complete arrival order if and only if it needs at most eight packets and no more than the bitmap has bits, or the bitmap is zero |
| `AtpReassembly.AnyOrder` | `tailtalk-core/src/atp.rs:285-337` | For pre-split packets, any order with any repeats: the requestor waits until the last missing packet is in, then raises exactly one response carrying the bytes and the user bytes of one packet |
| `AtpReassembly.CompleteWhenAllIn` | `tailtalk-core/src/atp.rs:296-310` | While the reply fits the bitmap, the completion test holds exactly when no packet is missing |
| `AtpReassembly.SmallBitmapTruncates` | `tailtalk-core/src/atp.rs:299-337` | A reply with more packets than the bitmap has bits, arriving in order, ends in a response cut short |
| `AtpReassembly.HoleLosesRequest` | `tailtalk-core/src/atp.rs:311-316` | Some order of arrival reaches the branch marked as impossible, closing the request with no event at all, if and only if the bitmap has a bit set and the reply at least two packets more than it has bits |
| `AtpReassembly.ChunksCarry` | `tailtalk-core/src/atp.rs:180-190` | The chunks of a reply carry the data exactly when eight are enough, and a shorter prefix otherwise |
| `AtpOnce.RaisedOncePerForgetting` | `tailtalk-core/src/atp.rs:243-284` | Over any run and any packets, an exactly-once request is raised at most once more than it was forgotten |
| `AtpOnce.ForgottenOnlyBy` | `tailtalk-core/src/atp.rs:223-232` | A transaction is forgotten by its release, by its reply expiring, or by being the oldest of a full table when another comes in; by nothing else |
| `AtpOnce.OneOutcomePerRequest` | `tailtalk-core/src/atp.rs:109-145` | A handle has no more responses and failures together than requests made under it, and none while one is waiting |
| `AtpNetwork.ResponseIsTheAnswer` | `tailtalk-core/src/atp.rs:236-345` | Over a lossy, duplicating, reordering network a response carries exactly the data of the first reply given to that request, if the reply fits the bitmap and the responder had not let the transaction expire or be evicted |
| `AtpNetwork.ForeignAnswerIsTaken` | `tailtalk-core/src/atp.rs:285-338` | A single packet from any address, with any data, closes a waiting request as its answer, and the release goes to that address |
| `AtpNetwork.RaisedOnceUntilDone` | `tailtalk-core/src/atp.rs:243-284` | Until the response is in, and while nothing expired or was evicted, the application is asked at most once and answers at most once |
| `AtpNetwork.NextKeepsInv` | `tailtalk-core/src/atp.rs:109-345` | Every step of requestor, responder and network keeps the transaction invariant |
| `AtpDelivery.RepeatIsReplayed` | `tailtalk-core/src/atp.rs:248-257` | Over any run in which the reply is neither released, expired nor evicted, a repeat of an answered request puts out exactly the packets the answer put out, all of them, in order |
| `AtpDelivery.ReplyLasts` | `tailtalk-core/src/atp.rs:223-232` | Left to its timer a reply is kept, every packet, for the release timeout after it was given and no longer |
| `AtpTimers.RequestWaits` | `tailtalk-core/src/atp.rs:109-145` | The first retry of a request is due when its interval has passed, and not before |
| `AtpDelivery.RetryGoesOut` | `tailtalk-core/src/atp.rs:357-380` | A request that is due and not given up is put out again as it was first, to where it first went |
| `AtpDelivery.RetryRecovers` | `tailtalk-core/src/atp.rs:243-380` | Recovery: whatever part of the first copies arrived, a retry is answered with every packet again, and the last one missing ends the request in exactly one response with the original data |
| `AtpDelivery.TransactionCompletes` | `tailtalk-core/src/atp.rs:109-345` | A transaction nobody loses: the request reaches the application as it was made, the answer comes back whole in any order as one response, and the release makes the responder forget it |
| `AtpTimers.DeadlinesMoveOn` | `tailtalk-core/src/atp.rs:347-380` | After a poll at a time every retry and every cache expiry lies strictly later |
| `AtpTimers.DriverRunsEnd` | `tailtalk-core/src/atp.rs:347-380` | A driver with no input wakes up at most nine times for each request it started with and once for each kept reply |
| `AtpTimers.EachRequestFailsOnce` | `tailtalk-core/src/atp.rs:357-380` | When it has no deadline left, every request has failed exactly once and the reply cache is empty |
| `AtpEndpointModel.AtpEndpoint.AllocateTid` | `tailtalk-core/src/atp.rs:392-401` | The first free nonzero id at or after the counter, wrapping |
| `AtpEndpointModel.AtpEndpoint.Request` | `tailtalk-core/src/atp.rs:109-145` | Sends an exactly-once request under a fresh id and keeps it for retries |
| `AtpEndpointModel.AtpEndpoint.SendAlo` | `tailtalk-core/src/atp.rs:149-163` | Sends a request that registers nothing |
| `AtpEndpointModel.AtpEndpoint.RespondPackets` | `tailtalk-core/src/atp.rs:197-233` | Numbers at most eight packets, marks the last, sends and caches them |
| `AtpEndpointModel.AtpEndpoint.Respond` | `tailtalk-core/src/atp.rs:171-192` | Splits the data and responds |
| `AtpEndpointModel.AtpEndpoint.HandleRequest` | `tailtalk-core/src/atp.rs:243-284` | Replays, suppresses or raises a request; `AtpDelivery.RepeatIsReplayed` says what a replay is |
| `AtpEndpointModel.AtpEndpoint.AllHere` | `tailtalk-core/src/atp.rs:296-303` | The completion test |
| `AtpEndpointModel.AtpEndpoint.Joined` | `tailtalk-core/src/atp.rs:306-316` | The payloads in order, or none if one is missing |
| `AtpEndpointModel.AtpEndpoint.HandleResponse` | `tailtalk-core/src/atp.rs:285-338` | Files a packet and closes the request when it completes |
| `AtpEndpointModel.AtpEndpoint.Poll` | `tailtalk-core/src/atp.rs:357-380` | Retries, failures and cache expiry |
| `AtpEndpointModel.AtpEndpoint.NextDeadline` | `tailtalk-core/src/atp.rs:347-354` | The earliest retry or expiry, or none if and only if there is none |
| `PapReplies.OpenIsAnswered` | `tailtalk-core/src/pap.rs:282-333` | Read back as a client reads it: an open request gets one OpenConnReply under its ConnID, zero result if and only if that step opens a session with the client it names, and then with the connection's socket; FFFF if and only if a session was in hand; the status follows |
| `PapReplies.SocketLeadsToConnection` | `tailtalk-core/src/pap.rs:155-168` | Packets to the socket an accepted client is given reach the connection's endpoint |
| `PapReplies.StatusIsAnswered` | `tailtalk-core/src/pap.rs:269-281` | A status request is told the status set, and changes nothing |
| `PapPrinting.StatusStaysShort` | `tailtalk-core/src/pap.rs:126-129` | In every run the status fits the Pascal string it is told as |
| `PapReplies.CloseIsAnswered` | `tailtalk-core/src/pap.rs:381-392` | A close under the session's ConnID is confirmed under it, and ends the session; any other is ignored |
| `PapReplies.ReadIsAnswered` | `tailtalk-core/src/pap.rs:473-514` | A waiting read is answered if and only if there is output, or its end, or the client is idle; it is told the front of the output, as much as it has room for, and the end exactly when nothing is left of an ended output |
| `PapReplies.PullIsSent` | `tailtalk-core/src/pap.rs:450-468` | A pull goes out if and only if there is a session with none outstanding and room for a full reply; it asks the session's client for all eight packets under the next number |
| `PapReplies.PullIsPrinted` | `tailtalk-core/src/pap.rs:396-433` | The answer to the outstanding pull is printed byte for byte, and ends the job if it says so and the job has bytes |
| `PapReplies.FailedPullIsRepeated` | `tailtalk-core/src/pap.rs:434-444` | A pull that failed goes out again under the same number |
| `PapPrinting.AnswersArePrinted` | `tailtalk-core/src/pap.rs:396-433` | Over any run the bytes sent to the printer are exactly the bytes clients answered pulls with, in order |
| `PapProgress.ServerIsPrompt` | `tailtalk-core/src/pap.rs:129-252` | After every public call of every run nothing is left undone: every event of a transaction is handled, no read waits while there is output or its end to tell, and a session with room and no pull outstanding is never left so |
| `PapProgress.CallKeepsPull` | `tailtalk-core/src/pap.rs:129-252` | Whatever is called, an outstanding pull still has a transaction that will answer it or fail, if and only if the call is not the packet that closes it with a packet missing |
| `PapProgress.PullsAreWaitedFor` | `tailtalk-core/src/pap.rs:434-468` | The same over whole runs: until the first such packet, and not after it |
| `PapProgress.LostPullStalls` | `tailtalk-core/src/atp.rs:311-316` | A pull lost in that way is never made again: the session stays stalled until it is closed |
| `PapProgress.TickIsAhead` | `tailtalk-core/src/pap.rs:170-199` | A tick drives the transactions of both endpoints: no retry or expiry is left at or before it, of those under way or those it starts |
| `PapPrinting.SessionClocks` | `tailtalk-core/src/pap.rs:175-196` | In every state of every run a session is closed for silence exactly when its client was last heard more than the timeout ago, and a waiting read is answered empty exactly when the client last wrote the idle time ago; the next tickle is an interval after the last |
| `PapPrinting.PullsAreNumbered` | `tailtalk-core/src/pap.rs:450-468` | A session numbers its pulls by the answers it has had, from 1 on and from 65535 round to 1 |
| `PapRuns.TraceIsGrammatical` | `tailtalk-core/src/pap.rs:254-446` | Every event trace is a prefix of (ConnectionOpened (ToPrinter+ JobEof)* ToPrinter* ConnectionClosed)* and stands where the session does |
| `PapRuns.OnePullAtATime` | `tailtalk-core/src/pap.rs:450-468` | The pulls of a session are all settled but for at most one |
| `PapRuns.SessionsAreIsolated` | `tailtalk-core/src/pap.rs:396-433` | While no transaction id serves two pulls, everything sent to the printer came in reply to a pull issued in the very session it was printed in |
| `PapRuns.OutputArrivesInOrder` | `tailtalk-core/src/pap.rs:473-514` | First answers to reads are exactly the output queued, in order, the rest still waiting; a first answer carries eof if and only if it leaves nothing waiting and the output was ended with no eof answer since |
| `PapRuns.RepeatIsAnsweredAlike` | `tailtalk-core/src/pap.rs:359-379` | A read repeating one of the last eight answered sequence numbers, from 65535 round to 1 included, gets the same bytes and user bytes and changes nothing else |
| `PapRuns.StaleReadIsIgnored` | `tailtalk-core/src/pap.rs:359-379` | A sequence number neither next nor among the last eight is not answered |
| `PapRuns.AnswerReachesClient` | `tailtalk-core/src/pap.rs:487-513` | An answer uses no more packets than the read's bitmap has bits, so it reaches the client whole in any order of arrival |
| `PapRuns.SessionTimersMoveOn` | `tailtalk-core/src/pap.rs:170-218` | After a tick every timer of the session lies ahead, the inactivity timeout if and only if it does not fall on the very tick |
| `PapRuns.DatagramIsSteps` | `tailtalk-core/src/pap.rs:155-168` | A datagram is handled by a sequence of the steps the theorems above are about |
| `PapRuns.PollIsSteps` | `tailtalk-core/src/pap.rs:170-199` | So is a timer tick |
| `PapRuns.CallsAreSteps` | `tailtalk-core/src/pap.rs:133-153` | So are queueing output, ending it and reporting room |
| `PapRuns.StepsExtendRuns` | `tailtalk-core/src/pap.rs:133-199` | Any sequence of these steps continues a run, so the theorems hold of a server driven through its public operations |
| `PapServerModel.PapServer.HandleListenerEvent` | `tailtalk-core/src/pap.rs:254-336` | Status and open requests, answered as `PapReplies.OpenIsAnswered` and `StatusIsAnswered` read the answers back |
| `PapServerModel.PapServer.HandleConnEvent` | `tailtalk-core/src/pap.rs:338-446` | Client requests, replies to pulls and failed pulls |
| `PapServerModel.PapServer.HandleSendData` | `tailtalk-core/src/pap.rs:359-379` | A read waits, is answered again, or is ignored |
| `PapServerModel.PapServer.TakePulled` | `tailtalk-core/src/pap.rs:396-433` | A reply to the outstanding pull becomes printer data and an end of job |
| `PapServerModel.PapServer.MaybePull` | `tailtalk-core/src/pap.rs:450-468` | Pulls only with a session, none in flight, and room for a full reply |
| `PapServerModel.PapServer.AnswerRead` | `tailtalk-core/src/pap.rs:473-514` | Answers a waiting read with output, eof, or nothing once the client is idle |
| `PapServerModel.PapServer.Drain` | `tailtalk-core/src/pap.rs:243-252` | Takes every event of both endpoints in order, then answers and pulls |
| `PapServerModel.PapServer.HandleDatagram` | `tailtalk-core/src/pap.rs:155-168` | Feeds the endpoint the socket belongs to |
| `PapServerModel.PapServer.KeepAlive` | `tailtalk-core/src/pap.rs:175-196` | Closes an inactive session or tickles its client |
| `PapServerModel.PapServer.Poll` | `tailtalk-core/src/pap.rs:170-199` | Timers of both endpoints and of the session |
| `PapServerModel.PapServer.PollTransmit` | `tailtalk-core/src/pap.rs:222-230` | The listener's packets go out before the connection's |
| `PortRuns.BytesInOrder` | `tailtalk-net/src/printer.rs:263-293` | Bytes queued are bytes written, being written and waiting, always; and they go to the port in job order |
| `PortRuns.EventsAfterTheirBytes` | `tailtalk-net/src/printer.rs:285-293` | Events come out in the order the role raised them, each only after the write of every byte queued ahead of it is over |
| `PortRuns.MemoryBound` | `tailtalk-net/src/printer.rs:281-283` | Held bytes and one outstanding pull never exceed two windows, while no reply is larger than a pull asks for |
| `PortRuns.PullsOnStaleRoom` | `tailtalk-core/src/pap.rs:243-252` | With nothing held, a full reply is taken and the next pull goes out in the same step, on room reported before the reply: the second window is needed |
| `PortRuns.DrainFlows` | `tailtalk-core/src/pap.rs:243-252` | Draining brings at most one pull's bytes, and takes the outstanding pull with them or needs room |
| `PortProgress.WritesEmptyTheQueue` | `tailtalk-net/src/printer.rs:471-479` | Write after write empties the queue: after n writes so many bytes are left as n full buffers do not hold, and the rest are counted as written |
| `PortProgress.EventsComeOut` | `tailtalk-net/src/printer.rs:286-293` | In every state of every run an event waits for no byte but those still held; with nothing held every event is ready |
| `PortProgress.EmptyPortPulls` | `tailtalk-net/src/printer.rs:281-283` | Settling a port that holds nothing sends a pull, if its session has none in flight |
| `PrinterPortModel.PortState.Settle` | `tailtalk-net/src/printer.rs:265-283` | Sorts the role's events and reports the room left |
| `PrinterPortModel.PortState.TakeWrite` | `tailtalk-net/src/printer.rs:471-479` | Moves at most one buffer into a write |
| `PrinterPortModel.PortState.WriteOver` | `tailtalk-net/src/printer.rs:649-663` | Gives a write's bytes back to the window however it ended |
| `PrinterPortModel.PortState.NextEvent` | `tailtalk-net/src/printer.rs:286-293` | The next event whose preceding bytes have all been written |
| `PrinterPortModel.PortState.HandleDatagram` | `tailtalk-net/src/printer.rs:297-306` | Feeds the role and settles |
| `MessageQueue.StreamReadsAreTheStream` | `tailtalk-net/src/adsp.rs:459-486` | Reads of any sizes through read_with_eom return exactly the stream that arrived, ends of messages included |
| `MessageQueue.OneResultPerMessage` | `tailtalk-net/src/adsp.rs:499-531` | A reader of whole messages gets exactly one result for each message that has left the queue, in order, the exact message or too long, and too long only past its buffer or past what the window can hold; what has not left is still queued, and one more result can only be the too long of the message being thrown away |
| `MessageQueue.QueueConserves` | `tailtalk-net/src/adsp.rs:459-531` | Whatever mix of reads: everything that arrived has left the queue or is still in it, in order |
| `QueueProgress.ReadGetsWhatThereIs` | `tailtalk-net/src/adsp.rs:459-486` | A stream read finds nothing if and only if nothing is queued; otherwise it goes on to the end of a message, of its buffer, or of what there is |
| `QueueProgress.MessageReadIsPrompt` | `tailtalk-net/src/adsp.rs:499-531` | A message read gets the first whole message whenever there is one that fits, and waits if and only if there is none and what there is may yet become one |
| `QueueProgress.WaitingReaderHasWindow` | `tailtalk-net/src/adsp.rs:265-270` | A reader that waits for the rest of a message is never one whose window is shut |
| `MessageQueue.Conn.TakeData` | `tailtalk-net/src/adsp.rs:221-232` | A Data event is queued, or dropped as part of a message being skipped |
| `MessageQueue.Conn.ReadWithEom` | `tailtalk-net/src/adsp.rs:459-486` | Up to the buffer, never past the end of a message |
| `MessageQueue.Conn.ReadMessage` | `tailtalk-net/src/adsp.rs:499-531` | A whole message, too long, closed, or wait |
| `MessageQueue.Conn.ShiftOffsets` | `tailtalk-net/src/adsp.rs:476-476` | Moves every offset back over what was read |
| `PackBits.EncodeRunLength` | `tailtalk-gui/ipp_bridge.rs:2388-2415` | Decoding gives the data back, the only end-of-data mark among the length bytes is the last byte, and the output is at most the data, one byte for every 128 begun, and the mark |
| `PackBits.EncodeAsciiHex` | `tailtalk-gui/ipp_bridge.rs:2418-2434` | Decoding gives the data back; the size is exact |
| `PackBits.EncodePage` | `tailtalk-gui/ipp_bridge.rs:2511-2512` | Both filters in turn are undone by both decoders in turn |
| `PackBits.GroupsDecode` | `tailtalk-gui/ipp_bridge.rs:2408-2415` | Whole groups followed by the mark decode to their data with nothing left over |
| `PackBits.SpelledDecodes` | `tailtalk-gui/ipp_bridge.rs:2422-2430` | Text of digit pairs and newlines decodes to its bytes, whatever follows |
| `HfsCatalog.WalkCatalog` | `hfs-reader/src/lib.rs:228-351` | Ends on any bytes, having visited exactly the nonzero nodes reachable from the root, each once; it breaks off if and only if one of them holds a record with no bytes |
| `HfsCatalog.PushLeads` | `hfs-reader/src/lib.rs:241-350` | The children of an index node and the next node of its level, in order |
| `HfsCatalog.ParseOverflow` | `hfs-reader/src/lib.rs:424-478` | The overflow records of the leaf chain, later ones replacing earlier, until a link is zero, dangling or repeated |
| `HfsLayout.LeafReadsBack` | `hfs-reader/src/lib.rs:441-476` | Round trip: a leaf laid out with these overflow records reads back as these records, fork, file, block and extents |
| `HfsLayout.IndexReadsBack` | `hfs-reader/src/lib.rs:241-343` | Round trip: an index node laid out with these children leads to these children |
| `HfsForks.GetExtents` | `hfs-reader/src/lib.rs:480-513` | The catalog's record and as many overflow records as cover the fork, each found by the block where the ones before it end; the count of blocks fits 32 bits whatever the records say |
| `HfsForks.ReadRaw` | `hfs-reader/src/lib.rs:176-204` | Every fork byte is the image byte its extents give it, as many as the logical size or the extents have; it fails if and only if a needed extent is outside the image, and names the first such |
| `HfsForks.WholeFork` | `hfs-reader/src/lib.rs:182-202` | A fork whose records list enough blocks is read in full if and only if reading does not stop too soon at an empty slot |
| `HfsForks.EmptySlotHidesFork` | `hfs-reader/src/lib.rs:183-185` | Whatever the image holds, reading a fork whose record lists blocks enough behind an empty first slot succeeds with no bytes |
| `HfsForks.FlatKeepsAllIffPacked` | `hfs-reader/src/lib.rs:183-185` | The blocks read are all the blocks listed if and only if no slot in use follows an empty one |
| `HfsForks.ReadFork` | `hfs-reader/src/lib.rs:159-170` | A fork found and read through both, with everything either promises; if the records list enough blocks it is read in full if and only if reading does not stop too soon |
| `StyleWriterRuns.JobsAndClockTakeTurns` | `tailtalk-core/src/stylewriter.rs:404-413` | No job ends before one started or twice for one start; the clock is switched on and off by turns, and never where the port cannot follow it |
| `StyleWriterRuns.JobsBalance` | `tailtalk-core/src/stylewriter.rs:547-635` | Every job started has ended, is in hand, or could not be called back: a call-back that fails ends the job without an event |
| `StyleWriterRuns.VanishedClientIsCleanedUp` | `tailtalk-core/src/stylewriter.rs:606-620` | A pipe closed with no END_SESSION on it raises the reset, then clock-off if on, then an unclean end; a clean end means END_SESSION came on that pipe |
| `StyleWriterRuns.RenamedAsStaged` | `tailtalk-core/src/stylewriter.rs:705-732` | A rename comes only from END_SESSION, on the connection that staged that very name and has not closed since |
| `StyleWriterRuns.EveryAttentionIsAnswered` | `tailtalk-core/src/stylewriter.rs:637-816` | Every attention, whatever its code and data, gets exactly one reply of at least two bytes on its own connection |
| `StyleWriterReplies.PrintRequestIsAnswered` | `tailtalk-core/src/stylewriter.rs:639-675` | Read off the bytes written on the connection: a print request is told 0000 if and only if that step starts the job, 0001 if and only if it is long enough and a job is in hand, FFFF otherwise |
| `StyleWriterReplies.EndSessionIsAnswered` | `tailtalk-core/src/stylewriter.rs:705-732` | END_SESSION is told FFFF if and only if it marks the session of the pipe it came on as ended, and 0000 otherwise, with whatever name was staged there published |
| `StyleWriterReplies.QuestionsAreAnswered` | `tailtalk-core/src/stylewriter.rs:697-749` | Whether all was written, jobs in hand, place in the queue and the fast clock are told as they are, and asking changes nothing |
| `StyleWriterReplies.ClockIsAnswered` | `tailtalk-core/src/stylewriter.rs:750-798` | Where the port can follow the printer's clock an attention that asks for one gets 0000 and the clock it asked for, announced if and only if it changes; elsewhere nothing changes, and SERIAL_CONTROL_JF alone is refused with FFEF |
| `StyleWriterReplies.JobUserIsAnswered` | `tailtalk-core/src/stylewriter.rs:418-426` | The request of the job in hand is told as it came, 70 bytes of it, or 70 zeros, and a result |
| `StyleWriterReplies.StatusComesBack` | `tailtalk-core/src/stylewriter.rs:757-775` | A status a Mac sets is what is told while the job is in hand |
| `StyleWriterReplies.NewJobHasNoStatus` | `tailtalk-core/src/stylewriter.rs:431-443` | A new job, or none, has no status to tell, whatever was set before |
| `StyleWriterReplies.UserIsAsSent` | `tailtalk-core/src/stylewriter.rs:651-653` | The user name a print request carries, or its first 32 bytes, is the one its job starts under |
| `StyleWriterReplies.NameIsPublished` | `tailtalk-core/src/stylewriter.rs:776-787` | A name set and its session ended renames to exactly that name, unless it was empty or cut short |
| `StyleWriterReplies.WithdrawIsAnswered` | `tailtalk-core/src/stylewriter.rs:676-696` | A job is withdrawn if and only if it is not yet called back and its request is repeated |
| `StyleWriterReplies.MacIsCalledBack` | `tailtalk-core/src/stylewriter.rs:588-604` | When the control connection closes the role calls back the node that asked, at the socket the request named |
| `StyleWriterReplies.PipeIsPrinted` | `tailtalk-core/src/stylewriter.rs:574-585` | What comes over the pipe is printed byte for byte, but for a fast-mode switch the port cannot follow |
| `StyleWriterReplies.StalledHandshakeEnds` | `tailtalk-core/src/stylewriter.rs:507-517` | A job whose Mac neither closes its control connection nor answers the call-back ends uncleanly exactly when the timeout has passed, counted afresh from the close; one with its pipe is never timed out |
| `StyleWriterReplies.JobRuns` | `tailtalk-core/src/stylewriter.rs:547-675` | A whole job: requested, called back, piped, ended and closed, starts once, prints what came over the pipe, and ends clean |
| `StyleWriterRuns.DeadlineStaysOnlyWhenExact` | `tailtalk-core/src/stylewriter.rs:507-524` | A handshake's deadline lies after the tick if and only if the tick is not at the very deadline, which expires nothing |
| `StyleWriterRuns.StepIsATurn` | `tailtalk-core/src/stylewriter.rs:547-816` | Everything a step can say, with what becomes of the job and the clock |
| `StyleWriterRuns.RoleTakesTheseSteps` | `tailtalk-core/src/stylewriter.rs:507-635` | Handling an event and expiring a stalled handshake are steps of the runs the theorems are about |
| `StyleWriterModel.StyleWriterRole.HandleAdspEvent` | `tailtalk-core/src/stylewriter.rs:547-635` | Every connection event |
| `StyleWriterModel.StyleWriterRole.HandleAttention` | `tailtalk-core/src/stylewriter.rs:637-816` | Every attention code |
| `StyleWriterModel.StyleWriterRole.PrintRequest` | `tailtalk-core/src/stylewriter.rs:639-675` | A print request is taken, refused as busy, or rejected, as `StyleWriterReplies.PrintRequestIsAnswered` reads the reply back |
| `StyleWriterModel.StyleWriterRole.Withdraw` | `tailtalk-core/src/stylewriter.rs:676-696` | A job not yet called back is withdrawn by repeating its request |
| `StyleWriterModel.StyleWriterRole.FinishSession` | `tailtalk-core/src/stylewriter.rs:705-732` | Ends the pipe's job, or publishes a staged name |
| `StyleWriterModel.StyleWriterRole.FollowPrinterClock` | `tailtalk-core/src/stylewriter.rs:404-413` | Says so only when the clock changes |
| `StyleWriterModel.StyleWriterRole.ExpireStalledHandshake` | `tailtalk-core/src/stylewriter.rs:507-517` | Frees the role after a stalled handshake |

## Left out

- AdspNetwork.StreamSafety: covers the runs in which no byte is in flight behind an end-of-message in flight; `AdspEom` shows what fails in others.
- AdspNetwork.EmptyBacklogMeansDelivered: about a connection that lives; a connection that is gone reads as no backlog.
- AtpNetwork.ResponseIsTheAnswer: covers networks in which responses to open requests are packets the responder sent, whoever passes them on; `ForeignAnswerIsTaken` shows what happens in others. The requestor never reuses a transaction id.
- PapRuns.SessionsAreIsolated: while no transaction id is used for two pulls, as after 65535 allocations it could be.
- PortRuns.MemoryBound: replies no larger than a pull asks for; ATP itself does not limit them.
- HfsCatalog.WalkCatalog: what a leaf's records say (names, types, paths) is not modelled, only which nodes are read; a record number whose offset would lie before the node is skipped, as the wrapping arithmetic of a release build does.
- Wire layouts of the ADSP, ATP and DDP headers: packets are records of the fields the code reads and writes.
- Re-keying, retransmission advice, forward resets and connections to several peers in the two-endpoint ADSP runs; the endpoint model has all of them.
- Liveness after a closed window whose reopening acknowledgement is lost: it is sent once and there is no probe. Over a line that loses nothing the sender goes on (`AdspFlow.QuietLineHasDelivered`).
- `flush_data` and stream ids in `tailtalk-net/src/adsp.rs`: routing events to streams, accept and connect queues.
- Wakers, futures and locks: each closure run under the lock is one step.
- NBP names, re-registration and the name handles in `tailtalk-net/src/printer.rs`.
- ImageWriter ribbon and rename detection, AEP, RTMP, AARP, LLAP and the daemon: small or mostly input and output.
- The PNM parser and everything in `tailtalk-gui` but the two encoders.
- HFS path building and the choice of volume header: string handling and fixed offsets.
- StyleWriter model and NBP type names: constant tables.
