# Sozvon: a verified model of its hard parts

Sozvon is a videoconference server with a browser client. This project models, in
Dafny, the parts of it that keep state over time and must agree across two sides or
across wrap-arounds, and proves what they promise, over all inputs and all runs.

- **Signalling resume** (`ReplayLog`, `ResumeClient`, `ResumeServer`, `ResumeProtocol`,
  `ResumeSafety`, `ResumeRecovery`, `ResumeSchedules`, `ResumeEnds`, `ResumeOwnership`). One
  client, one server session (readers, loop and writer) and any number of websockets, each a
  pair of FIFOs that may lose their undelivered suffix at any moment. Sockets that were
  given up may go on delivering, attempts may overlap and reach the server late. What each
  side has processed is always a prefix of what the other sent, and a session that lives
  with its logs reaching back far enough can always get to where every schedule of
  deliveries ends with everything processed.
- **Renumbering and retransmission** (`Seqno`, `PacketMap`, `PacketMapSpec`, `Renumbering`,
  `RenumberingRuns`, `LossBitmap`, `ReceiveStats`, `PacketCache`, `Keyframes`, `Nack`,
  `NackAnswers`, `Forwarding`). 16-bit tables, rings and bitmaps stand beside unbounded
  sequence numbers and histories, and are proved to agree with them. The image of a number
  is defined without the table: the number less the dropped numbers below it.
- **End-to-end encryption** (`E2eeSession`, `E2eeSafety`, `E2eeRuns`, `E2eeFailure`,
  `E2eeConsent`, `E2eeJoint`, `E2eeHandshake`, `E2eeObject`, `E2eeChat`, `E2eeCalls`,
  `E2eeBytes`, `E2eeFrame`). The asynchronous key agreement, where every await is a point at
  which anything may happen; two clients at a handshake together, which always ends with
  both encrypted if messages get through; numbered chat over a server that is not trusted;
  and the byte format of sealed frames. Cryptography is a set of functions, with laws only
  where they are stated: that a Diffie-Hellman agreement commutes, that sealing can be
  undone, that nothing opens but what was sealed.
- **Controllers and admission** (`BitrateController`, `BitrateRuns`, `BitrateDecisions`,
  `BitrateCaps`, `BitrateLedger`, `Lobby`, `UnboundedChannel`). The receiver-driven bitrate
  cap, the registry of caps at the sender with lazy forgetting, the waiting room and seats
  of a group, and the wake-up of an unbounded channel.

Code that changes an object in place is modelled as a class with that object's fields;
each method is proved against a function on the value of those fields, and the theorems
over runs are about those functions. Each run is a finite sequence of actions, of any
length and in any order; an action that is not possible in a state is skipped.

`Common` holds the option type. `dafny verify dfyconfig.toml` checks everything.

## Model

| member | source | states |
|---|---|---|
| ReplayLog.KeepsAnswersAfterFirst | static/signalling-resume.js:73-105 | A log that keeps the longest suffix of its history within the bounds answers "after n" exactly as the whole history does: all messages after the first n, or a refusal, with the offset computed from what is kept |
| ReplayLog.AfterFirst | rtpconn/resume.go:113-121 | The answer that both logs are specified by, over everything ever sent: with the first n messages it makes up the history |
| ReplayLog.Trim | static/signalling-resume.js:87-89 | The eviction loop stops at the longest suffix of the history that fits, never past it, and its byte count is the size of what is left |
| ReplayLog.ReplayRing.Push | rtpconn/resume.go:99-111 | The history grows by the message, the message gets the number that is the new length of the history, and the ring again keeps the longest suffix within 512 messages and 2 MiB, with an exact byte count |
| ReplayLog.ReplayRing.After | rtpconn/resume.go:115-121 | Exactly the messages after the first n; a valid n is refused only if more than 512 messages, or two or more that exceed 2 MiB, were sent since |
| ReplayLog.SentLog.Push | static/signalling-resume.js:83-90 | The same for the sent log of the client |
| ReplayLog.SentLog.After | static/signalling-resume.js:99-104 | The same answer as the ring of the server, and a refusal of what is not an integer |
| ResumeClient.ServerConnection.constructor | static/protocol.js:634-635 | A new connection is on its first socket, with nothing sent, received or secret |
| ResumeClient.ServerConnection.SendMessage | static/protocol.js:385-399 | The fields and the sent log change as Send says: a numbered message is kept if the socket is open or the session can be resumed, and goes out only if the socket is open and no resume is under way |
| ResumeClient.ServerConnection.Close | static/protocol.js:362-366 | The socket is closed and forgotten, and the connection is leaving |
| ResumeClient.ServerConnection.TearDown | static/protocol.js:437-469 | Ending happens once and takes the secret and the resume with it |
| ResumeClient.ServerConnection.StartResume | static/protocol.js:490-522 | A resume closes the old socket before it opens a new one, which becomes current; one that took too long ends the session |
| ResumeClient.ServerConnection.HandleClose | static/protocol.js:566-583 | Only the close of the current socket counts; it is retried, resumed or final by state and close code |
| ResumeClient.ServerConnection.HandleResumed | static/protocol.js:681-702 | Exactly the messages that the server lacks are sent again in order, or the session ends if they are no longer kept |
| ResumeClient.ServerConnection.HandleMessage | static/protocol.js:641-702 | Only messages of the current socket are acted on, and each numbered one is counted once |
| ResumeServer.ClientWriter.WriteFrame | rtpconn/webclient.go:2597-2615 | A write that fails closes and drops the connection; with no connection nothing is written |
| ResumeServer.ClientWriter.TakeFrame | rtpconn/webclient.go:2619-2656 | A numbered message enters the ring before it is written, whether or not there is a connection |
| ResumeServer.ClientWriter.WriteFrames | rtpconn/webclient.go:2672-2675 | A replay is one write after the other, some of which may lose the connection for the rest |
| ResumeServer.ClientWriter.Serve | rtpconn/webclient.go:2657-2676 | An attach request either is refused, leaving the writer and its connection alone, or replaces the connection, acknowledges, and replays exactly what follows the count of the client |
| ResumeServer.ClientLoop.HandleRead | rtpconn/webclient.go:1092-1123 | What an older reader still delivers changes nothing; otherwise numbered messages are counted and processed in order, and only a normal close or a failing handler ends the session |
| ResumeSafety.StepKeeps | rtpconn/webclient.go:1028-1220 | Every step of client, server and network keeps the invariant that ties what was processed, what is in flight on the sockets, the reader generations and the two logs together |
| ResumeSafety.RunKeeps | rtpconn/webclient.go:2583-2679 | So the invariant holds after every run, with socket losses, stale sockets that still deliver and overlapping or late resume attempts |
| ResumeSafety.ExactlyOnceInOrder | static/protocol.js:490-702 | In every run, what each side has processed is a prefix of what the other side sent: nothing lost, repeated or reordered, and each count is the length of that prefix |
| ResumeSafety.NothingMissing | rtpconn/webclient.go:1204-1220 | When both sides are on the same unbroken socket, what was processed, what is in the reader pipeline, on the socket and in the queue add up to exactly all that was sent, in both directions |
| ResumeSafety.BothCountTheSame | rtpconn/resume.go:79-85 | The two sides number the same messages |
| ResumeRecovery.Join | static/protocol.js:490-522 | From every reachable state in which the session lives and the logs reach back far enough, also to the count of every earlier attempt still waiting, a fresh socket, the handshake of a resume and the replay put both sides on that socket |
| ResumeRecovery.ResumeDeliversEverything | rtpconn/webclient.go:2657-2676 | From there a way on exists after which the client has processed everything the server submitted and the server everything the client sent |
| ResumeSchedules.StepMoves | rtpconn/webclient.go:1092-1123 | With both sides on one socket, every delivery on any socket, read, hand-over, receive and successful write, older readers included, leaves less to do and keeps both sides there |
| ResumeSchedules.EveryScheduleDelivers | rtpconn/webclient.go:1028-1220 | So every schedule of such steps ends within a bound known at its start, and when none is left each side has processed all that the other one sent |
| ResumeSchedules.ResumeIsCertain | static/protocol.js:490-702 | And from wherever the session can be resumed a point is reached from which every schedule does that |
| ResumeEnds.SessionEndsIff | rtpconn/webclient.go:1092-1123 | On every run: the session at the server has ended if and only if it expired, a resume was refused because the writer was done or its messages no longer kept, or the newest reader brought a message whose handling failed or a deliberate close |
| ResumeEnds.NetworkKeepsResumable | rtpconn/webclient.go:1028-1123 | From every state of a run that can be resumed: lost frames, reads, errors, hand-overs and receives that do not end the session leave it so |
| ResumeEnds.LosingASocket | rtpconn/webclient.go:1099-1109 | When the newest reader reports an error, and the loop hears of it, the session can be resumed afterwards if and only if it was not a deliberate close |
| ResumeEnds.ClientEndsIff | static/protocol.js:490-583 | On every run: the client has given its session up if and only if its current socket closed finally (leaving, code 4001, or not resuming and without the secret or with code 1000), resuming took too long, or the server lacks messages no longer kept |
| ResumeEnds.CloseIsGotOver | static/protocol.js:566-583 | Any other close of the current socket leaves a session that can be resumed, on a new socket, or waiting if an attempt was under way |
| ResumeEnds.SocketsAreAttempts | static/protocol.js:490-583 | On every run there is one socket for the start and one for each attempt: at a close that is not final, after more than 20 s of silence, and when an attempt has gone without answer |
| ResumeEnds.SentIs | static/protocol.js:385-399 | On every run the client has sent exactly what it was told to while it had a socket that was open or could be resumed, and a ping at each tick after 8 to 20 s of silence |
| ResumeEnds.LeavingIsFinal | static/protocol.js:362-366 | Leaving closes the socket, nothing more is sent on it, and no close that follows is got over |
| ResumeEnds.GreetingFirst | static/protocol.js:641-660 | On every run nothing is processed, counted or taken as a secret before the greeting of the server |
| ResumeEnds.OnlyFoundAreServed | rtpconn/resume.go:135-276 | On every run the server goes on with a socket only if it was the first one, or asked for a session that was found, with a count of at most 2^53 |
| ResumeRecovery.FirstConnectionCanResume | rtpconn/webclient.go:1049-1076 | An ordinary first connection reaches a state from which the above holds |
| ResumeOwnership.StepKeeps | rtpconn/resume.go:258-276 | Every channel operation between requester, loop and writer keeps the record of who has which connection |
| ResumeOwnership.ExactlyOneOwner | rtpconn/resume.go:222-278 | Under every interleaving of reply, writer exit and session end, a requester that finished has either handed its connection to the writer or refused and closed it, never both and never neither, and no connection is closed twice |
| ResumeOwnership.ClosedInTheEnd | rtpconn/webclient.go:2589-2594 | Once writer and requester are done, the connection is closed exactly once |
| ResumeOwnership.NoRequesterStuck | rtpconn/resume.go:265-275 | A requester still waiting when the session is done can always finish |
| ResumeOwnership.TakenWhileLive | rtpconn/webclient.go:1028-1048 | A session that lives takes over the connection of the first request that waits, answers it, and goes on |
| ResumeOwnership.EverythingEnds | rtpconn/resume.go:222-278 | From wherever a run has got to, if nobody presents another connection, what happens comes to an end within a bound known there; when nothing more can happen every requester has finished and every connection is closed exactly once |
| ResumeOwnership.ReturnedIff | rtpconn/webclient.go:1028-1048 | The loop has returned if and only if it did so of its own accord, found the writer gone, or got the answer that the writer has a gap |
| ResumeOwnership.ServedIs | rtpconn/webclient.go:2657-2676 | A refusal by the writer closes the connection presented and leaves its own alone; taking over closes the old one, and the new one too if it breaks |
| Seqno.CompareNear | packetmap/packetmap.go:212-221 | Sequence numbers less than 2^15 apart compare as the unbounded numbers they stand for |
| Seqno.CompareOpposite | packetmap/packetmap.go:212-221 | Numbers exactly 2^15 apart compare as if the first were later, both ways round |
| Seqno.UnwrapUnique | packetcache/packetcache.go:68-77 | Near a reference, a sequence number stands for one unbounded number only |
| PacketMap.Map.MapPacket | packetmap/packetmap.go:28-62 | The table and the answer are those of MapSeqno: pass-through, extension, reset after a jump of more than 8192 either way, or lookup |
| PacketMap.Map.Add | packetmap/packetmap.go:73-111 | The last interval grows or a new one is made, in the ring order of at most 128 entries |
| PacketMap.Map.Lookup | packetmap/packetmap.go:116-141 | The backwards walk around the ring finds what the newest entry at or before the number says |
| PacketMap.Map.ReversePacket | packetmap/packetmap.go:146-181 | The same walk over the images of the entries |
| PacketMap.Map.Drop | packetmap/packetmap.go:185-210 | Only the number expected next is dropped, and delta then goes down by one |
| PacketMapSpec.MapRefines | packetmap/packetmap.go:28-111 | Inside the window, Map on the 16-bit table is Map on unbounded numbers: same answer modulo 2^16, and the new table again stands for the new truth |
| PacketMapSpec.DropRefines | packetmap/packetmap.go:185-210 | Drop succeeds exactly for the next number, and the table then stands for the truth with that number dropped |
| PacketMapSpec.MapCoherent | packetmap/packetmap.go:73-111 | The kept intervals stay disjoint, in order, free of dropped numbers, and followed by drops only |
| PacketMapSpec.FindsTarget | packetmap/packetmap.go:116-141 | A lookup finds a number exactly if a kept interval covers it, never if it was dropped, and its image is the number less the dropped numbers below it |
| PacketMapSpec.TargetsInOrder | packetmap/packetmap.go:28-62 | Subtracting the drops below keeps the order and never gives two forwarded numbers one image |
| PacketMapSpec.TargetsWithoutGap | packetmap/packetmap.go:28-62 | Numbers with only dropped ones between them get neighbouring images |
| Renumbering.ReverseInverts | packetmap/packetmap.go:146-181 | Inside the window Reverse gives number s for image t exactly if s is kept and t is its image |
| Renumbering.OneNumberPerImage | packetmap/packetmap.go:143-181 | No two kept numbers have one image |
| Renumbering.NackAnsweredWithSameNumber | rtpconn/rtpconn.go:766-786 | A NACK for outgoing number t finds the original and sends it under t again, through Reverse, Drop and Map, with the table unchanged, also before anything was ever dropped, if and only if the packet is at most 8192 behind; an older one resets the table |
| RenumberingRuns.OldNackResets | packetmap/packetmap.go:55-60 | And such an older one can arrive: two operations lead to a table in which Reverse still finds number 0 and answering it makes the table empty |
| Renumbering.NothingLeftOut | packetmap/packetmap.go:87-94 | One state: if the intervals leave no undropped number out between them, every number not dropped from the first kept one up to the next number is in one of them |
| Renumbering.ForwardSeamless | packetmap/packetmap.go:87-94 | Forwarding a packet leaves no undropped number out if and only if fewer than 8192 drops came before it, or it is the very next number |
| Renumbering.DropOpensNoGap | packetmap/packetmap.go:204-209 | A drop leaves the next outgoing number unchanged and the dropped number is not mapped |
| RenumberingRuns.EveryUndroppedNumberIsMapped | packetmap/packetmap.go:28-111 | Over every run inside the window with fewer than 8192 drops before each forwarded packet: Map answers every number not dropped, from the first kept one up to the next number and at most 8192 behind, with its image, and leaves the table alone |
| Renumbering.ImagesKeepTheOrder | packetmap/packetmap.go:28-62 | Over every run between resets inside the window: equal numbers get equal images, different ones different images in the same order, and no dropped number is mapped |
| Renumbering.LostPacketComesBack | rtpconn/rtpconn.go:225-308 | Over every run: what went out and is still kept, or went out before anything was dropped, goes out again under the number it had, through Write, and the table does not change |
| RenumberingRuns.LastIntervalIff | packetmap/packetmap.go:116-141 | Beyond the window: a number of the last interval, at most 8192 behind, is answered with its image if and only if it lies at most 2^15 (modulo 2^16) after the start of that interval |
| RenumberingRuns.LastFoundIff | packetmap/packetmap.go:116-141 | On the runs that forward 0, drop 1 and then forward 2 to n, for n below 65535, the last number is still found if and only if n is at most 32770 |
| RenumberingRuns.BeyondTheWindow | packetmap/packetmap.go:116-130 | So on the run up to 40000 the number just forwarded is not found again, which is why the theorems over runs need the window |
| LossBitmap.LossMap.Record | packetcache/packetcache.go:93-118 | set in place: restart, ignore, or shift for room, shift past what is complete, and set one bit |
| LossBitmap.LossMap.Take | packetcache/packetcache.go:129-153 | get in place: up to 17 bits leave the window, and the first missing number and the 16 bits after it are reported |
| LossBitmap.SetAgrees | packetcache/packetcache.go:93-118 | Recording keeps the 32 bits in agreement with the set of numbers received; the window moves on just as far as it takes to hold the number, and then to the first number missing |
| LossBitmap.LeavesForAReason | packetcache/packetcache.go:104-115 | A number leaves the window on recording only if it was received or is 32 or more behind |
| LossBitmap.NoLossForgotten | packetcache/packetcache.go:80-153 | After any run: every number since the first one after the restart was received, was reported missing, is still in the window or beyond it, or was passed by a number at least 32 above |
| LossBitmap.GetNamesTheMissing | packetcache/packetcache.go:129-153 | A report names exactly the numbers missing in the slice that it takes off the window |
| LossBitmap.WindowAgrees | packetcache/packetcache.go:80-118 | After any run of recording and asking, each of the 32 bits says whether its number was received since the last restart |
| LossBitmap.ReportedOnce | packetcache/packetcache.go:120-153 | Between restarts no number is reported twice |
| PacketCache.Cache.UpdateStats | packetcache/packetcache.go:161-184 | The counters change in place as Stored says, with the wrap-around of 16 and 32 bits |
| ReceiveStats.ExtendedSeqnoTrue | packetcache/packetcache.go:351-361 | On runs without a far-backward jump across a cycle boundary, the extended sequence number (section 6.4.1 of RFC 3550) is the true highest number modulo 2^32 |
| ReceiveStats.JumpExact | packetcache/packetcache.go:161-165 | After a far-backward jump it is still right if and only if the new number is below the old one |
| ReceiveStats.JumpShows | packetcache/packetcache.go:161-165 | Two packets after which it is wrong: 0 and then 61440 |
| ReceiveStats.ReceivedWithinExpected | rtpconn/rtpstats.go:25-30 | While the counters stay below 2^32, received never exceeds expected, in the interval and in total, so that the loss fraction does not wrap |
| PacketCache.Cache.Store | packetcache/packetcache.go:157-204 | The list of the last C packets loses its oldest and gains the new one; the index returned is where it is; statistics and bitmap follow; a keyframe takes the place of the last one, which otherwise is forgotten exactly if the highest number moves forward to one that compares below it |
| PacketCache.Cache.Get | packetcache/packetcache.go:217-247 | A packet with the number is found if and only if the list has one |
| PacketCache.Cache.GetAt | packetcache/packetcache.go:259-273 | The packet at an index, if it is the one asked for |
| PacketCache.Cache.Resize | packetcache/packetcache.go:286-309 | Every branch keeps exactly the most recent packets in order; below tail the indices stay unless the new capacity is smaller |
| PacketCache.Cache.ResizeCond | packetcache/packetcache.go:321-340 | Resizes exactly if the capacity is not near enough and no index below tail is lost; every packet below tail then keeps its index |
| PacketCache.HoldsLastStores | packetcache/packetcache.go:157-204 | Whatever the order of stores and resizes, the list is exactly the packets stored last, in order, as many as the smallest capacity since has left |
| Nack.ToBitmap | packetcache/packetcache.go:375-388 | One pair names exactly the numbers of a prefix of the list, which is not empty, and stops only at a number out of its reach |
| Nack.EncodeNacks | rtpconn/rtpconn.go:738-748 | The pairs (section 6.2.1 of RFC 4585) name exactly the numbers of the list, unless 240 pairs are used up; then exactly those of a prefix |
| NackAnswers.DownTrack.AnswerOne | rtpconn/rtpconn.go:770-783 | One number of a NACK: reverse, look up in the cache or ask for it once, and write; a write that fails ends the pair |
| NackAnswers.DownTrack.WriteOne | rtpconn/rtpconn.go:225-308 | Write as the track sees it: sent under the mapped number and with the picture-id delta, dropped, or failed, with the table of the map after it |
| Forwarding.ReceiverGets | rtpconn/rtpconn.go:225-308 | Over every run of packets inside the window, told from the packets and their flags: an unwanted packet with the very number expected next is dropped and no other; every other fresh packet, and every late one still known, goes out once, in order, under its number less the dropped ones below it, and its picture-id delta is the sum of how far those moved the picture id on |
| Forwarding.PacketWritten | rtpconn/rtpconn.go:225-308 | One packet: what goes out, what the table stands for afterwards, and that an error comes back if and only if its flags cannot be read or there is something to send that cannot be written |
| Forwarding.ImageIsFinal | packetmap/packetmap.go:28-111 | What a packet goes out as is the same with all the drops of the run as with those before it |
| Forwarding.NoGapSeen | packetmap/packetmap.go:28-210 | So the same packet sent again has the same number and delta, and a packet separated from an earlier one by dropped numbers only goes out right after it |
| Forwarding.NewHolds | packetmap/packetmap.go:10-18 | What that takes of the table holds of a new one |
| Forwarding.DeltaIs | packetmap/packetmap.go:48-54 | The picture-id delta that goes with a number is the sum of the steps of the drops below it |
| NackAnswers.DownTrack.GotNack | rtpconn/rtpconn.go:766-786 | All pairs in order, each up to a write that fails |
| NackAnswers.PairAnsweredExactly | rtpconn/rtpconn.go:770-783 | A pair is answered in its order: for numbers the receiver was sent, each packet still cached under that very number and with its delta, up to the first write that fails if one does; a number that the table no longer knows is passed over; and the table does not change |
| NackAnswers.NacksAnsweredExactly | rtpconn/rtpconn.go:766-810 | So over a whole NACK the table does not change, and if no write fails nothing that is cached is missing |
| NackAnswers.ReplyIsTheOriginal | packetcache/packetcache.go:157-247 | After any mix of stores and resizes, the packet that goes out for a number is the one that was stored for that unbounded number, as long as the numbers held lie within 2^15 of it, and nothing goes out exactly if that packet has left the cache |
| Keyframes.KeyframeKnownIff | packetcache/packetcache.go:157-191 | On every run in which the stream never goes far back: the cache knows a keyframe if and only if one was stored and the highest number is less than 2^15 beyond the last one, and then it is that one |
| E2eeObject.E2EE.CanChat | static/e2ee.js:627-629 | It says yes exactly if the call is encrypted, and then everything of the call derives from the keys of its one handshake with the only other participant |
| E2eeObject.E2EE.ResetPeer | static/e2ee.js:288-310 | resetPeer in place: a new generation with nothing in it, which overtakes every suspended run |
| E2eeObject.E2EE.Fail | static/e2ee.js:335-346 | fail in place: a new generation, which overtakes every suspended run; peer and own key stay |
| E2eeObject.E2EE.StartWith | static/e2ee.js:350-372 | Up to its first await; a session under way with the same peer is left alone |
| E2eeObject.E2EE.Recompute | static/e2ee.js:186-221 | By the number of other participants: idle, handshake with the only one, or downgrade |
| E2eeObject.E2EE.AddUser | static/e2ee.js:172-177 | Keeps the object valid; its whole state after a user joined |
| E2eeObject.E2EE.DelUser | static/e2ee.js:179-184 | Keeps the object valid; if the peer left, every run that was suspended is overtaken |
| E2eeObject.E2EE.SetRequire | static/e2ee.js:145-148 | Keeps the object valid; its whole state after the option changed |
| E2eeObject.E2EE.ContinueInClear | static/e2ee.js:268-274 | Keeps the object valid; consent counts only while it is asked for |
| E2eeObject.E2EE.AttachFails | static/e2ee.js:579-605 | Keeps the object valid; a failed transform is told to the peer and downgrades |
| E2eeObject.E2EE.OnMessage | static/e2ee.js:403-489 | Keeps the object valid, whatever arrives from whom: which messages are looked at, whether a handshake starts first, what is answered and what fails |
| E2eeObject.E2EE.ResumeStart | static/e2ee.js:373-386 | Each stretch of startWith between awaits |
| E2eeObject.E2EE.ResumeFinalize | static/e2ee.js:512-570 | Each stretch of finalize between awaits, each behind its generation check |
| E2eeObject.E2EE.ResumeHash | static/e2ee.js:477-487 | The initiator compares the hash with the commitment, and stops if overtaken meanwhile |
| E2eeObject.E2EE.GoOn | static/e2ee.js:350-570 | Keeps the object valid, whichever suspended run goes on; one that was overtaken changes nothing but the list of suspended runs |
| E2eeObject.E2EE.Reject | static/e2ee.js:350-570 | Keeps the object valid when what an await waited for throws |
| E2eeObject.LeavingOvertakes | static/e2ee.js:179-184 | When the peer leaves a valid session, every suspended run is of an earlier generation afterwards |
| E2eeSafety.StepInv | static/e2ee.js:172-570 | Every event and every stretch between two awaits keeps the invariant: whatever is derived comes from the current material, one run at most belongs to the current generation, and the record is in order |
| E2eeSafety.StepFollows | static/e2ee.js:288-346 | No step turns a generation back, and within one the commitment and key of the peer never change once set |
| E2eeSafety.OvertakenWritesNothing | static/e2ee.js:493-559 | A run of startWith or finalize that was overtaken changes nothing but the list of suspended runs, at whichever await it stands |
| E2eeRuns.EstablishedIsSecured | static/e2ee.js:512-570 | On every run: a session that says it is encrypted is so with the only other participant, and secret, emoji, both chat keys and the four stream keys all derive from the keys of this one handshake; an initiator holds a key that opens the commitment it stored |
| E2eeRuns.SetAtMostOnce | static/e2ee.js:444-489 | Per generation the commitment, the key and the chat keys are each set at most once, however a run goes on |
| E2eeRuns.CommitmentHonoured | static/e2ee.js:444-489 | An initiator that became encrypted had stored a commitment, then sent its own key, and then stored a key that opens that commitment |
| E2eeFailure.StepFailsIff | static/e2ee.js:427-487 | An event or a stretch between awaits makes a session fail exactly for a message of another version, a second commitment or key that differs from the first, or a key that does not open the commitment, looked at when a handshake is under way |
| E2eeFailure.FailedForACause | static/e2ee.js:335-346 | On every run: a session has failed if and only if one of these has happened and it has stayed failed since; then no secret, emoji, chat key or worker key is left, nor a run that could bring one back |
| E2eeConsent.StepRemembers | static/e2ee.js:226-274 | Every step remembers encryption from the step that brought it and consent from the step that gave it to the next encryption, and enters clear only where it is allowed and a refusal only where it is not |
| E2eeConsent.RemembersExactly | static/e2ee.js:226-274 | On every run the session remembers an encrypted call if and only if there was one, and a consent if and only if the user gave it, when asked, after the last one |
| E2eeConsent.ClearOnlyIfAllowed | static/e2ee.js:226-274 | So on every run a step goes to clear only if the group does not require encryption and, after an encrypted call, the user has agreed since; and to a refusal only if one of these is missing |
| E2eeConsent.ParticipantsDecide | static/e2ee.js:145-221 | Whenever the participants or the option change: idle alone, or refused if encryption is required and impossible; refused or in clear with two others; with one other the same, and that one told, if this client cannot encrypt; else a handshake with that one |
| E2eeConsent.OthersDecide | static/e2ee.js:403-425 | The same when the transform fails, the other participant cannot encrypt, or this client never could; and messages of anybody but the only other participant change nothing |
| E2eeConsent.RoomIs | static/e2ee.js:145-184 | On every run the participants are those that came and have not gone, other than this client; encryption is required if and only if it was last set so; a transform has failed if and only if one did |
| E2eeConsent.AwaitedForPeer | static/e2ee.js:288-386 | On every run: while a key pair is awaited for somebody, that one is the peer and there is no key pair yet |
| E2eeRuns.OvertakenForGood | static/e2ee.js:335-346 | After a failure, no run of an older generation writes anything back, whatever happens before it goes on |
| E2eeRuns.ResetOvertakesForGood | static/e2ee.js:288-310 | The same after a reset |
| E2eeRuns.OneOfTheTwoInitiates | static/e2ee.js:358-361 | Of two different ids exactly one is the initiator, as both sides see it |
| E2eeRuns.TranscriptsAgree | static/e2ee.js:518-524 | Two encrypted clients have the same transcript if and only if each holds the key that the other one sent |
| E2eeRuns.BothSidesAgree | static/e2ee.js:526-551 | Then they show the same emoji, their chat keys are crossed over, and every stream has one key |
| E2eeRuns.MatchingEmojiMeanTheirKeys | static/e2ee-crypto.js:170-195 | If transcript and emoji tell the two sides apart whenever they differ, matching emoji mean that neither key was replaced, and the other way round |
| E2eeJoint.NextKeeps | static/e2ee.js:350-570 | Two sides at a handshake, with a FIFO each way: whatever a side still lacks is on its way to it, in a message or a suspended run, and what it has is what the other side has; every delivery and every stretch of a run keeps that |
| E2eeJoint.QuietIsDone | static/e2ee.js:403-570 | So when no delivery and no stretch of a run is possible any more, both sides have established the session, with the key of the other one |
| E2eeJoint.NextLeavesLess | static/e2ee.js:350-570 | And a measure of what is under way goes down with every move, hello and commitment answered or lost as they may be |
| E2eeHandshake.NextJoined | static/e2ee.js:350-570 | Two real sessions that get only what the other one has sent move exactly as those two sides do |
| E2eeHandshake.UndisturbedHandshake | static/e2ee.js:350-570 | Two clients that get what the other one has sent, in order and at any pace, and nothing else, whichever meets the other first and however runs and deliveries interleave: neither ever fails or falls back, there are at most 66 moves, and when none is left both are encrypted with each other's key, the same emoji, crossed chat keys and one key per stream |
| E2eeHandshake.HandshakeCanEnd | static/e2ee.js:350-570 | Every such run goes on to one that ends so |
| E2eeBytes.WriteUint48 | static/e2ee-crypto.js:90-97 | The six bytes of the counter are written at the offset, and no other |
| E2eeBytes.Uint48RoundTrip | static/e2ee-crypto.js:88-106 | What is read back is the number written, modulo 2^48 |
| E2eeBytes.Uint48Same | static/e2ee-crypto.js:90-97 | Two counters have the same bytes if and only if they are congruent modulo 2^48 |
| E2eeBytes.Uint48Onto | static/e2ee-crypto.js:99-106 | Every six bytes are those of the number they read as |
| E2eeBytes.PrefixedParse | static/e2ee-crypto.js:166-168 | A field shorter than 2^16 bytes behind its length can be told from what follows |
| E2eeBytes.TranscriptInjective | static/e2ee-crypto.js:186-195 | Two handshakes are hashed from the same bytes if and only if ids, commitment and both keys agree |
| E2eeBytes.LongFieldsCollide | static/e2ee-crypto.js:166-168 | Whatever the commitment, the keys and the second id: a first id of 2^16 + n bytes that has the length of the second id behind its first n bytes is hashed like another pair of ids |
| E2eeBytes.ChatAADInjective | static/e2ee-crypto.js:284-294 | What a chat message is authenticated with fixes sender, recipient, number modulo 2^48 and kind |
| E2eeFrame.BuildTrailer | static/e2ee-crypto.js:383-386 | The trailer is salt, counter and key id |
| E2eeFrame.DecryptUndoesEncrypt | static/e2ee-crypto.js:375-423 | Opening undoes sealing for frames of every length, also shorter than the clear prefix, whenever both sides leave the same number of bytes clear |
| E2eeFrame.OnlySealedFramesOpen | static/e2ee-crypto.js:400-423 | What opens is exactly what was sealed, with a key of the resolver, under the salt, counter and key id of its own trailer, and opens to that frame only; any other frame is too short, for want of a key, or not authentic, each under its exact condition, and never malformed |
| E2eeFrame.ServerSees | static/e2ee-crypto.js:338-392 | What the forwarding server sees: nothing of audio, ten bytes of a key frame, one of any other; the rest is sealed together with those, and 29 bytes are added |
| E2eeFrame.Encryptor.Transform | static/e2ee-worker.js:117-145 | A frame takes a number unless it is forwarded in clear or dropped for want of a key, also if sealing fails |
| E2eeFrame.Encryptor.IvRepeatsOnlyAfterAll | static/e2ee-crypto.js:349-354 | Within one transform two frames share an IV if and only if their numbers are congruent modulo 2^48 |
| E2eeFrame.Encryptor.NoIvRepeats | static/e2ee-worker.js:117-139 | So no IV repeats over the first 2^48 frames, whatever keys were in use |
| E2eeChat.ChatEnd.SendChatNow | static/e2ee.js:656-674 | A message gets the next number only if it goes out, and nothing goes out once the session is over |
| E2eeChat.ChatEnd.DecryptChatNow | static/e2ee.js:695-718 | The counter moves only when a message has opened; what was skipped is reported |
| E2eeChat.ShownInOrder | static/e2ee.js:676-718 | Whatever the server withholds, repeats, reorders or makes up: what is shown is an order-preserving, duplicate-free subsequence of what was sent, and shown plus missed is the last number plus one |
| E2eeChat.ShownUnlessLate | static/e2ee.js:695-718 | Whatever the server does, forged or not: a message is shown if and only if it opens at some delivery, in a session that lasts, before its own number or a higher one has been shown |
| E2eeChat.AllShown | static/e2ee.js:656-718 | Delivered in order, every message is shown and none is reported missing |
| E2eeChat.SameNumberAndKind | static/e2ee-crypto.js:284-294 | Between two given ends the associated data fixes number modulo 2^48 and kind, for kinds of any length |
| E2eeChat.WrapsAround | static/e2ee-crypto.js:284-294 | Number 2^48 has the associated data of number 0 |
| E2eeChat.TooManyMessages | static/e2ee.js:676-718 | On a run of 2^48 + 1 messages in which nothing is forged the last one is shown as the first, so the bound on the order of what is shown cannot be left out |
| E2eeCalls.StepCarried | static/e2ee.js:288-317 | Whatever happens to the session, chat keys and counters stay as they are, or start anew in a later generation or in one that had no keys |
| E2eeCalls.ShownUnderItsHandshake | static/e2ee.js:641-718 | On every run of a session with its two chat queues and the awaits of sealing and opening: what was shown opens under the receiving key that the session had while encrypted with the sender in that generation, and what went out was given the sending key |
| E2eeCalls.SentInItsCall | static/e2ee.js:641-674 | On every run what goes out was written in that very call: a message whose call is over by its turn goes out in no later one |
| E2eeCalls.SpokenIff | static/e2ee.js:641-674 | In a call that goes on, a message that is written goes out, sealed for the peer under the next number, if and only if the call is encrypted |
| E2eeCalls.HeardIff | static/e2ee.js:687-718 | And a payload that arrives is shown, with the count of those missing before it, if and only if the call is encrypted, it comes from the peer, is well formed, carries a new number below 2^48, and opens |
| E2eeCalls.CallsCount | static/e2ee.js:656-718 | Within each generation of every run: what went out is numbered from 0 without gaps, what was shown has increasing numbers, and shown plus missed is the last number plus one |
| E2eeCalls.SealedInTheSameHandshake | static/e2ee.js:526-551 | On every two runs: what a client shows was sealed, under that number and kind, with the sending key that the sender has when the two are encrypted with each other in that handshake |
| E2eeCalls.CallsInOrder | static/e2ee.js:641-718 | If what opens is on the record of its sender, what is shown in a generation is, message by message and in increasing order, what the sender gave these numbers under the same key |
| BitrateController.SanitizeCap | static/bitrate-control.js:155-161 | A cap is valid exactly if it is in (0, MAX_CAP], and never below MIN_CAP then |
| BitrateController.Controller.Ceiling | static/bitrate-control.js:413-420 | The loop over the table gives the ceiling for the largest picture, none for other streams |
| BitrateController.Controller.UpdateWith | static/bitrate-control.js:498-608 | One poll changes the whole state, and answers, as Update says |
| BitrateController.Controller.Adjust | static/bitrate-control.js:569-600 | The decision on the cap in place |
| BitrateRuns.CameraInRangeIff | static/bitrate-control.js:373-420 | A camera has a cap between MIN_CAP and the ceiling of the largest picture after every poll with video, on all runs, if and only if it starts with a valid cap no higher than the lowest ceiling |
| BitrateRuns.CameraRun | static/bitrate-control.js:498-608 | And after a poll it has a cap if and only if there is video |
| BitrateRuns.ChangesArePaced | static/bitrate-control.js:569-600 | While video keeps arriving, every decrease comes at least 6 s and every increase at least 15 s after every earlier change, and no decrease within 10 s of the first poll that said anything |
| BitrateDecisions.CapIs | static/bitrate-control.js:498-608 | The cap after each poll of every run with time going forward, told from the polls: none without video; the start cap as video begins; lowered if and only if two polls since the warm-up counted against the sender with nothing better and no spent decision between, something arrives and 6 s have passed since the last change; raised if and only if eight good polls did and 15 s have passed; each to the exact number |
| BitrateDecisions.BadCountIs | static/bitrate-control.js:548-563 | The count against the sender reaches two if and only if there are two such polls |
| BitrateDecisions.GoodEightIs | static/bitrate-control.js:548-563 | The count for the sender reaches eight if and only if there is such a stretch with eight good polls |
| BitrateDecisions.SentWhen | static/bitrate-control.js:602-607 | A message goes to the sender with a poll if and only if the cap has changed, or a cap stands and none has gone out for 10 s |
| BitrateRuns.SizeOfChanges | static/bitrate-control.js:573-600 | How far a decrease goes (60% of what arrives and of the old cap, or the floor) and an increase (30% to 100%, up to the ceiling; lifted from RELEASE_AT on) |
| BitrateRuns.HighestIsMax | static/bitrate-control.js:569-571 | What arrives is the highest of the last rates |
| BitrateRuns.StandingCapIsRepeated | static/bitrate-control.js:602-607 | Whenever a cap stands after a poll it was last sent less than REFRESH before, and every change is sent at once |
| BitrateCaps.Caps.Get | static/bitrate-control.js:657-673 | The answer is the least of the requests at most TTL old, and only older ones are removed |
| BitrateCaps.Caps.Sweep | static/bitrate-control.js:661-669 | The loop of get removes exactly what is too old while it finds the least of the rest |
| BitrateCaps.Caps.Set | static/bitrate-control.js:630-648 | The request is recorded or lifted, and the result says exactly whether the least fresh request changed |
| BitrateCaps.Caps.Forget | static/bitrate-control.js:681-690 | Every request of one receiver goes, empty streams with it, and the streams are reported |
| BitrateLedger.LazyForgettingInvisible | static/bitrate-control.js:630-673 | After any run with time going forward, what get and both looks of set see are exactly the requests at most TTL old in a ledger that never forgets |
| BitrateLedger.ClockGoingBackShows | static/bitrate-control.js:662-666 | With time going back it would show |
| BitrateLedger.ForgetReports | static/bitrate-control.js:681-690 | What forget reports has every stream with a standing request of the receiver, and none where it never had one |
| BitrateLedger.ArrivedLately | static/bitrate-control.js:602-607 | With polls at most P apart and delivery in order within D, the last message to arrive of a standing cap arrived less than REFRESH + P + D ago |
| BitrateLedger.StandingCapNotForgotten | static/bitrate-control.js:602-673 | So if REFRESH + P + D is within TTL the sender never forgets a standing cap: its answer is that cap or a tighter one |
| Lobby.ForSubgroup | group/description.go:505-523 | There is a room exactly if the description allows subgroups or is a hub; a room under an operator hub has a lobby and is no hub itself, and any other is as its parent in what is modelled |
| Lobby.Room.SeatErrorUnlocked | group/group.go:862-892 | Who is refused for want of a seat, and as what |
| Lobby.Room.Knock | group/group.go:915-994 | What happens at the door: admission used up, token, lock, knock or refusal |
| Lobby.Room.Add | group/group.go:894-1041 | The whole of a join: state and outcome |
| Lobby.Room.AdmitKnock | group/group.go:256-270 | Only somebody who knocks can be admitted |
| Lobby.Room.DenyKnock | group/group.go:273-287 | Denying takes back knock and admission |
| Lobby.Room.DropKnock | group/group.go:291-302 | So does disconnecting |
| Lobby.Room.Del | group/group.go:1100-1113 | Only the client that holds the id leaves |
| Lobby.Room.AutoLockKick | group/group.go:1065-1084 | The group locks itself only without operators |
| Lobby.AdmissionsBoundJoins | group/group.go:915-980 | On every run, in a lobby: the joins of an id through the waiting room, plus its admission still open, never exceed the times an operator let it in; in an operator-room child these are all joins without op |
| Lobby.WaitingIff | group/group.go:958-980 | On every run an id is in the waiting room if and only if it knocked and has since been neither answered nor disconnected |
| Lobby.LetInIff | group/group.go:256-302 | And it is let in if and only if an operator answered such a knock and the id has since neither gone away nor used that up |
| Lobby.LockedIff | group/group.go:1065-1084 | On every run a group is locked if and only if an operator locked it, or it did so itself behind the last operator, and nobody has unlocked it since |
| Lobby.MemberIff | group/group.go:1034-1113 | On every run a client is a member if and only if it joined and has not left, whatever others with its id have tried |
| Lobby.OperatorIff | group/group.go:1034-1041 | A member is an operator if and only if it was made one, on joining or later, and that has not been taken back |
| Lobby.GuestJoinsIff | group/group.go:894-1041 | On every run and in every kind of group: who joins and who is shown to the operators as waiting, told from the knocks, answers and locks so far: in an operator-room child a guest needs an answer to its own knock, in an ordinary lobby an invitation will do but not past a lock, without a lobby only the lock counts; and hours, operator, seat and id must allow it |
| Lobby.GuestsWithinLimit | group/group.go:863-875 | On every run the members that are neither operators nor system clients keep to the limit of the group, apart from those that lost operator rights inside |
| Lobby.NeverThreePeople | group/group.go:877-889 | On every run a group that requires encryption and is no hub has at most two members that are not system clients, operators included |
| UnboundedChannel.Channel.Append | unbounded/unbounded.go:26-29 | The critical section of Put appends and notices whether the queue was empty |
| UnboundedChannel.Channel.Trigger | unbounded/unbounded.go:31-36 | The signal is there afterwards, at most one |
| UnboundedChannel.Channel.Get | unbounded/unbounded.go:41-47 | Get takes everything, in order |
| UnboundedChannel.NothingLost | unbounded/unbounded.go:25-47 | Under every interleaving a queue that is not empty has a signal, a Put about to trigger or a consumer about to get; all gets and the queue together are all puts |
| UnboundedChannel.PutInLockOrder | unbounded/unbounded.go:25-29 | The puts are in the order in which they had the lock |
| UnboundedChannel.WokenForAll | unbounded/unbounded.go:31-47 | Once every Put has done its part, a waiting consumer is woken and gets everything put so far |
| UnboundedChannel.TriggersOwed | unbounded/unbounded.go:25-36 | Under every interleaving the puts yet to trigger are those that found everything got, less those that have triggered |
| UnboundedChannel.SignalledIff | unbounded/unbounded.go:31-36 | There is a signal if and only if one was triggered and none has been taken since |
| UnboundedChannel.AwakeIff | unbounded/unbounded.go:31-47 | The consumer is awake if and only if it took a signal and has not got since |

## Left out

What the model does not capture, in one line each.

- Media, WebRTC, websocket framing, JSON, files and timers: sockets are FIFOs, a timer is an action that may come at any time, and time is an argument.
- Renumbering.ImagesKeepTheOrder: holds while all kept intervals start less than 2^15 behind the next number; RenumberingRuns.BeyondTheWindow shows on a run why that is needed.
- RenumberingRuns.LastIntervalIff: for fewer than 2^16 drops between the first and the last kept interval.
- Forwarding.ReceiverGets: as long as no packet is more than 8192 away from the number expected next and the window holds; whether a layer is wanted is a flag of the packet; the deltas of picture ids are exact, but that the ids are contiguous at the receiver is not claimed.
- Keyframes.KeyframeKnownIff: as long as the stream never goes more than 256 back, which restarts the statistics and leaves the keyframe as it was.
- ReplayLog.ReplayRing.Push: numbers are unbounded where the source has 64 bits, and a message is measured by its length as a string.
- ResumeSafety.ExactlyOnceInOrder: speaks of the messages that either side puts in its numbered stream; an attempt to resume with a wrong secret only ever finds no session, and the version check of the handshake of the server is taken to succeed.
- ResumeRecovery.ResumeDeliversEverything: needs that the log also reaches back to the count of every older attempt still queued at the loop, since serving one that it does not reach ends the session.
- ResumeSchedules.EveryScheduleDelivers: the schedules have no cut, failing write, new resume attempt or ending of the current reader in them, and nothing new is sent.
- ResumeServer.ClientLoop.HandleRead: whether a handler fails, and whether a silent session expires, are choices of the run; the logging state and the media check of the ticker are not modelled.
- PacketCache.Cache.Store: a capacity is at least 1, and packets are at most 1504 bytes, as callers ensure.
- ReceiveStats.ReceivedWithinExpected: on runs where the counters, which the source keeps in 32 bits, stay below 2^32.
- NackAnswers.DownTrack.AnswerOne: the parsing of packet flags and whether a write fails are parameters, and the filtering of buffered NACKs by age before they are sent is not modelled.
- Layer switching, congestion estimation and RTCP feedback other than NACK.
- E2eeRuns.EstablishedIsSecured: says nothing about the worker being in cleartext mode; a downgrade does not advance the generation and may happen during the last await of finalize, and setRequire can leave a session as it is.
- E2eeHandshake.UndisturbedHandshake: no user joins or leaves, nothing throws and no transform fails while the handshake lasts; its timer, which only marks the handshake as slow, is left out.
- E2eeObject.E2EE.OnMessage: a send that throws because the socket is closed, and payload fields of a wrong type, are not modelled; detail texts and callbacks are left out.
- E2eeChat.ShownInOrder: up to 2^48 messages in one session (E2eeChat.TooManyMessages shows why); E2eeCalls has the same within each generation of a session that goes on.
- E2eeCalls.CallsInOrder: that the record of the sender has what opens is assumed of the cipher and its keys; two generations with one and the same chat key are not told apart. The queues are modelled on values.
- E2eeFrame.Encryptor.Transform: the counter is unbounded where JavaScript numbers are exact up to 2^53; the salt is a parameter.
- E2eeBytes.TranscriptInjective: texts are given by their UTF-8 bytes; for fields shorter than 2^16 bytes (E2eeBytes.LongFieldsCollide shows why).
- BitrateController.Controller.UpdateWith: how an interval is judged from the statistics, and what delay is put down to the path, is an argument of each poll, so that the results hold for every judgement; products are exact where JavaScript rounds to doubles.
- BitrateLedger.StandingCapNotForgotten: times of both ends are on one scale; delivery is in order and within the delay.
- Lobby.AdmissionsBoundJoins: with one description throughout; passwords and tokens are reduced to what they grant, and an operator's removal of a client is a departure.
- Disjointness of members and knockers does not hold in the source and is not claimed.
- The pushes to other members on joining, leaving and knocking, the chat history, and the kicking of members when the last operator leaves.
- UnboundedChannel.NothingLost: one consumer, as every use has.
- The writer pool, session descriptions, tokens, the web server, recording, the user interface and the administration tools.
