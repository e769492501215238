# Verified models of the call server, the relay and the media modules

This project models a dozen stateful components of the repository in Dafny and proves what
each of them has to keep over every run or every input. Code that changes state in place is
modelled by classes and loops (`IdleList`, `Server`, `Reader`, `Hfp`, `Monitor`, `Compiler`,
`CaptureModule`, `FrameTimes`, the codec's array methods, the capability search, the answering
machine detector); each method is proved against a specification function, and the theorems
are about those functions and about all runs of them.

| file | what it models |
|---|---|
| CallThreadPool, CallThreadSafety, CallThreadTheorems, CallThreadBytes | the pool of H.323 call threads as atomic steps of any number of starters and workers |
| CallThreadList | the idle list of the pool on the heap |
| RelayFrames, RelayRoutes, RelaySafety, RelayEvents, RelayLookup, RelayEffects, RelayRuns, RelayServer | the relay server: frames, routes, what the legs are told, the index, each datagram byte by byte, whole calls, and the server object |
| RfcommStream, RfcommEdges, RfcommReader | the reader of AT messages, character by character |
| CindParser | the indicator parsers of the hands-free driver |
| HfpHandshake, HfpEffects, HfpRuns, HfpMonitor | the queue-driven initialisation of a phone |
| BestCapability | the search for the best capture capability |
| AdsiScript, AdsiLinks, AdsiSteps, AdsiNames, AdsiResults, AdsiBudget, AdsiLines, AdsiCompiler | the ADSI script compiler |
| AdsiPacking, AdsiDownload | the packing of its records into messages |
| AnsweringMachine, AnsweringRules | the answering machine detector |
| RealtimeCodec | the encoding of values in realtime tables |
| AudioPump, FrameRate | the audio pump of the mixer and the frame-rate history of a capture |
| Basics | types that several components use |

Verify everything with `dafny verify dfyconfig.toml`.

## What the proofs found

Where a property is false of the code, the model keeps the code as it is; a lemma gives the
failing input or the exact condition.

- The head of the idle list is read before the list lock is taken
  (ooh323cDriver.c, line 132). The starters inspect parked workers only exactly in the runs in
  which the worker that was read is on the list when the lock is taken (`ScansIdleIffTimely`);
  otherwise a freed record is reached (`StaleHeadReachesFreedWorker`). The theorems about the
  pool assume such timely reads and name that assumption. A failed read of a pipe loses a call
  that was reported as started (`FailedReadLosesCall`).
- A video frame falls through to the mini frame code, although the comment of the code says
  that it does not; it is passed on twice exactly when the sender has a leg with call number 0
  (`VideoPassedOnce`), which two datagrams bring about (`ZeroIsFound`).
- A route that is NATTED or P2PED is released by no HANGUP or TXREJ, because only SETTED routes
  are found (`ReleasedOnlyWhenSetted`, `LegReleasesIffSetted`); four datagrams make such a route
  (`JoinedRouteStays`).
- The reader of text messages takes an empty line together with the line behind it, and with a
  third one when that is empty or O. It sees the final OK exactly when the empty line before the
  OK is not taken in this way (`TextMessageEnds`): behind non-empty lines, when the text has a
  multiple of three empty ones (`EmptyLinesByThree`). An empty line and a line OK inside a text
  end it early (`SuchTexts`).
- The indicator parser bounds the index array by its size in bytes; it stays inside exactly for
  at most 15 names (`NamesFit`), and 16 leave it (`SixteenNames`).
- The capability search returns the last exact match whatever its pixel format
  (`TypeHonoured`), as two capabilities show (`FormatIsLost`).
- The compiler does not look for an open IF at the end of a file, and ENDIF already marks the
  subscript as defined: such a script is returned with a subscript without a length and a count
  (`SubsAreWellFormed`, `LengthsAreStored`), as four lines show (`MainWithoutLength`). Names of
  more than 39 characters are never found again (`LookupIsStable`, `LongNameIsLost`). ONEVENT
  writes 0 for every state (`TargetIsNamed`). A subscript may have more than the 253 bytes that
  a message takes (`SubsAreSent`, `SimpleMainFits`). IFEVENT and the GOTO of an IF are written
  without a check, so the limit of a subscript is passed by four bytes for each of them at most
  (`LengthIsBounded`), and nothing bounds their number (`NoBoundOnGotos`).
- The verdict of a long word becomes NOTSURE when the wait of the event that decides returned 0
  (`LongWordNeedsWait`), as one frame shows (`LongWordIsLost`).
- The empty value reads back as a blank (`ColumnRoundTrip`).
- The frame count is that of all fresh entries exactly when no fresh entry is behind a stale one
  (`EarlyExitCountsAll`); a clock that goes back leaves such an entry (`ClockThatWentBack`), and
  no other clock does. A frame of the first microsecond is overwritten by the next and not
  counted (`RateCountsRecentFrames`, `FirstMicroIsLost`).

## Model

| member | source | states |
|---|---|---|
| `CallThreadPool.PushLinked` | wtkrtc_server/asterisk-11.16.0/addons/ooh323cDriver.c:89-95 | a worker that parks keeps the head, next and prev fields a doubly linked list of distinct workers |
| `CallThreadPool.UnlinkLinked` | wtkrtc_server/asterisk-11.16.0/addons/ooh323cDriver.c:106-115 | a worker that leaves, from any place of the list, keeps the list linked and takes only itself out |
| `CallThreadSafety.StepKeepsInv` | wtkrtc_server/asterisk-11.16.0/addons/ooh323cDriver.c:80-189 | every atomic action of every starter and worker keeps the invariant of locks, list, wake-ups and calls, when the worker that was read as the head is on the list at the list lock |
| `CallThreadSafety.RunKeepsInv` | wtkrtc_server/asterisk-11.16.0/addons/ooh323cDriver.c:80-189 | the invariant holds after every interleaving of any number of starters, workers and timeouts in which every worker read as the head is on the list when the list lock is taken |
| `CallThreadTheorems.EachCallServedOnce` | wtkrtc_server/asterisk-11.16.0/addons/ooh323cDriver.c:80-189 | a call is taken by at most one worker; a call whose start returned 0 is served, or waits with exactly one woken worker, or was lost by a failed read; a call whose start did not return 0 was taken by nobody |
| `CallThreadTheorems.CallNeverOverwritten` | wtkrtc_server/asterisk-11.16.0/addons/ooh323cDriver.c:140-145 | because inUse is read again under the lock, the store of the call finds a living worker without a call |
| `CallThreadTheorems.LeavingWorkerServes` | wtkrtc_server/asterisk-11.16.0/addons/ooh323cDriver.c:98-117 | in every timely run a worker that leaves the list with a call serves it if and only if its read of the pipe has not failed: else it exits with the call, which is never served later |
| `CallThreadTheorems.WokenWorkerServes` | wtkrtc_server/asterisk-11.16.0/addons/ooh323cDriver.c:80-189 | in every timely run a parked worker that was given a call has begun to serve it after at most three actions of its own, whatever the others do in between, unless its read failed |
| `CallThreadTheorems.NoCallLost` | wtkrtc_server/asterisk-11.16.0/addons/ooh323cDriver.c:98-117 | while no read fails, no worker exits with a call, in every timely run |
| `CallThreadTheorems.NoDeadlock` | wtkrtc_server/asterisk-11.16.0/addons/ooh323cDriver.c:106-145 | a thread that waits for a lock waits, through at most two holders, for a thread that has a step |
| `CallThreadTheorems.ListLockIsReleased` | wtkrtc_server/asterisk-11.16.0/addons/ooh323cDriver.c:130-185 | while the list lock is held every action of the thread the others wait for lowers a bound, and no action of any thread raises it |
| `CallThreadTheorems.ScansIdleIffTimely` | wtkrtc_server/asterisk-11.16.0/addons/ooh323cDriver.c:130-138 | starters look at parked workers only, throughout a run, exactly when every worker that was read as the head without the lock is on the list when the list lock is taken |
| `CallThreadTheorems.StaleHeadReachesFreedWorker` | wtkrtc_server/asterisk-11.16.0/addons/ooh323cDriver.c:130-138 | a run in which the head read before the lock names a worker that has freed its record |
| `CallThreadTheorems.FailedReadLosesCall` | wtkrtc_server/asterisk-11.16.0/addons/ooh323cDriver.c:100-117 | a timely run in which a start returns 0 and the worker exits with the call unserved |
| `CallThreadBytes.ListIsExclusive` | wtkrtc_server/asterisk-11.16.0/addons/ooh323cDriver.c:88-115 | while a thread holds the list lock no action of any other changes the head, the links of the members or the lock |
| `CallThreadBytes.OnlyParkingChangesList` | wtkrtc_server/asterisk-11.16.0/addons/ooh323cDriver.c:88-96 | while the list lock is free only a worker that parks changes the list, and it puts itself in front |
| `CallThreadBytes.WorkerIsExclusive` | wtkrtc_server/asterisk-11.16.0/addons/ooh323cDriver.c:134-185 | while a starter holds the lock of a worker, that worker stays on the list and no other thread changes its call, inUse or lock |
| `CallThreadBytes.ActsUnlessWaiting` | wtkrtc_server/asterisk-11.16.0/addons/ooh323cDriver.c:80-189 | a started call or living worker can act exactly unless it waits for a held lock, and a parked worker reads a byte exactly when its pipe holds one |
| `CallThreadBytes.BytesAreConserved` | wtkrtc_server/asterisk-11.16.0/addons/ooh323cDriver.c:99-141 | over every run, timely or not, the bytes in a pipe and the bytes its worker has read are together the bytes that starters have written to it |
| `CallThreadBytes.NewWorkerOrFailure` | wtkrtc_server/asterisk-11.16.0/addons/ooh323cDriver.c:147-178 | without a claimed worker a new one begins to serve the call, or the start returns -1 and changes nothing else |
| `CallThreadBytes.ClaimIsGivenUp` | wtkrtc_server/asterisk-11.16.0/addons/ooh323cDriver.c:140-145 | a worker that is found in use, or that cannot be written to, is unlocked and otherwise left alone |
| `CallThreadBytes.ParkedWorkerServes` | wtkrtc_server/asterisk-11.16.0/addons/ooh323cDriver.c:80-185 | a timely run in which the second call is served by the parked worker of the first, and its pipe is empty again |
| `CallThreadBytes.FailedWriteCreates` | wtkrtc_server/asterisk-11.16.0/addons/ooh323cDriver.c:134-178 | a timely run in which the write to the pipe fails: the parked worker stays as it was and a new one serves |
| `CallThreadList.IdleList.Park` | wtkrtc_server/asterisk-11.16.0/addons/ooh323cDriver.c:89-95 | on the heap: the record is linked in front, the list stays well-formed, and no other record changes its use or lock |
| `CallThreadList.IdleList.Leave` | wtkrtc_server/asterisk-11.16.0/addons/ooh323cDriver.c:106-115 | on the heap: the record leaves from any place and the others keep their order |
| `CallThreadList.IdleList.FindIdle` | wtkrtc_server/asterisk-11.16.0/addons/ooh323cDriver.c:132-138 | on the heap: the scan locks and returns the first record that is neither in use nor locked, or returns null when there is none; no other record changes |
| `CallThreadList.PointersAgree` | wtkrtc_server/asterisk-11.16.0/addons/ooh323cDriver.c:80-115 | while the heap records represent the list of the interleaved steps, head, next and prev are the same pointers in both |
| `CallThreadList.ParkRefinesPush` | wtkrtc_server/asterisk-11.16.0/addons/ooh323cDriver.c:89-95 | what parking leaves on the heap represents the pool after the step of parking |
| `CallThreadList.LeaveRefinesUnlink` | wtkrtc_server/asterisk-11.16.0/addons/ooh323cDriver.c:106-115 | what leaving leaves on the heap represents the pool after the step of leaving, from any place |
| `CallThreadList.FindIdleIsScanEnd` | wtkrtc_server/asterisk-11.16.0/addons/ooh323cDriver.c:132-138 | the record that the heap scan chooses is the worker at which the scan of the interleaved steps ends |
| `CallThreadList.ScanAlone` | wtkrtc_server/asterisk-11.16.0/addons/ooh323cDriver.c:132-138 | a starter that scans without interference reaches, in its own steps, the first worker neither in use nor locked, or the end of the list |
| `RelayFrames.ParseIes` | wtkrtc_proxy_server/misc_lib.c:103-136 | the parser accepts exactly the bodies that split into whole elements and collects token and user name from them |
| `RelayFrames.AcceptsWholeElements` | wtkrtc_proxy_server/misc_lib.c:103-136 | a body is accepted iff it is the encoding of a list of elements, and of one list only |
| `RelayFrames.SplitPrint` | wtkrtc_proxy_server/misc_lib.c:103-136 | every encoded list of elements is split into that list |
| `RelayFrames.AnnotationKeepsBody` | wtkrtc_proxy_server/wtk-relay.c:244-315 | an accepted body with the address and event elements behind it is accepted and says the same |
| `RelayRoutes.ForwardedHeartbeatKeepsToken` | wtkrtc_proxy_server/wtk-relay.c:244-315 | a forwarded heartbeat carries the same token as the received one |
| `RelayEffects.HeaderBytes` | wtkrtc_proxy_server/wtk-relay.c:76-131 | the flag bits and call numbers of the three kinds of frames, in network byte order |
| `RelayEffects.CommandNumbers` | wtkrtc_proxy_server/wtk-relay.c:127-436 | the numbers of the commands in frames of type 6: 23, 25, 41, 5 and 27 |
| `RelayEffects.ShortIsDropped` | wtkrtc_proxy_server/wtk-relay.c:84-120 | a datagram shorter than 4 bytes, 6 for video and 12 for a full frame does nothing |
| `RelayEffects.MalformedIsDropped` | wtkrtc_proxy_server/wtk-relay.c:129-337 | TXCNT, heartbeat and TXREADY with a body that is not made of whole elements do nothing, nor do the first two without a token |
| `RelayEffects.AnnotationBytes` | wtkrtc_proxy_server/wtk-relay.c:244-264 | the 21 bytes that a forwarded heartbeat gets: element 18 with the address, and element 216 with the event |
| `RelayEffects.TokenIsRead` | wtkrtc_proxy_server/misc_lib.c:103-136 | the characters of element 222 are the token, wherever it stands among other elements |
| `RelayEffects.NoTokenIsRead` | wtkrtc_proxy_server/wtk-relay.c:129-143 | without that element, or when it begins with a NUL, there is no token |
| `RelayEffects.SecondOverlays` | wtkrtc_proxy_server/misc_lib.c:116-123 | a second token or user name is copied over the first, whose end stays |
| `RelayEffects.FirstLegIsFound` | wtkrtc_proxy_server/misc_lib.c:165-203 | the lookup finds the first route of the bucket that is SETTED or RELEASING and has the leg, the left one first, and nothing if there is none |
| `RelayEffects.NewToken` | wtkrtc_proxy_server/wtk-relay.c:139-154 | a TXCNT whose token the newest route does not begin adds a route of one leg, leaves all others and sends nothing |
| `RelayEffects.KnownToken` | wtkrtc_proxy_server/wtk-relay.c:155-190 | otherwise: the first leg may repeat it, the second leg completes the route and the packets are exchanged, and after that nothing happens |
| `RelayEffects.OnlyItsRoute` | wtkrtc_proxy_server/wtk-relay.c:139-326 | a TXCNT or heartbeat changes a route only if it is the newest and its token begins that of the frame |
| `RelayEffects.HeartbeatStays` | wtkrtc_proxy_server/wtk-relay.c:207-325 | a heartbeat from the address of a leg: sent to the other leg with event 0, 1 or 5, kept as last packet, bits cleared, nothing else changed |
| `RelayEffects.HeartbeatMoves` | wtkrtc_proxy_server/wtk-relay.c:207-325 | a heartbeat from another address: the leg moves, a connected route is SETTED again, and both legs get the last packet of the other with event 2 |
| `RelayEffects.ReadyIsMarked` | wtkrtc_proxy_server/wtk-relay.c:327-403 | a TXREADY sets bit 1, 2, 4 or 8 by leg and placement; 3 gives NATTED with event 3, 12 P2PED with event 4, and anything else sends nothing |
| `RelayEffects.OtherIsPassedOn` | wtkrtc_proxy_server/wtk-relay.c:404-442 | any other full frame goes from the left leg to the right address and from the right leg to the left; HANGUP gives RELEASING, TXREJ RELEASED |
| `RelayEffects.ReleaseUnlinks` | wtkrtc_proxy_server/misc_lib.c:217-247 | a release takes the entries with one of the two legs out of the two buckets, and no other entry |
| `RelayEffects.MediaIsPassedOn` | wtkrtc_proxy_server/wtk-relay.c:89-111 | a mini or video frame goes from the left leg to the right address and from the right leg to the left, and changes nothing |
| `RelaySafety.AfterKeeps` | wtkrtc_proxy_server/wtk-relay.c:69-465 | after any datagrams: the TXREADY bits are one of 0,1,2,3,4,8,12 and match the placement of the legs, NATTED legs have different IPs and P2PED legs the same, no bucket names a released route, every entry has that call number on a leg, and the legs of a route that is set up have different call numbers |
| `RelaySafety.ReceiveChanges` | wtkrtc_proxy_server/wtk-relay.c:192-436 | one datagram never revives a released route, never changes token or call numbers, takes a connected route whose leg moved back to SETTED with its bits cleared, and enters NATTED or P2PED only from SETTED with the full set of bits |
| `RelaySafety.ReleaseIsFinal` | wtkrtc_proxy_server/wtk-relay.c:424-436 | a released route keeps its status in every continuation and is in no bucket |
| `RelaySafety.ReleasedOnlyWhenSetted` | wtkrtc_proxy_server/wtk-relay.c:404-436 | a datagram releases a route if and only if it is a HANGUP or TXREJ whose sender and call number find the route, and the route is SETTED |
| `RelaySafety.HistoryOfMatches` | wtkrtc_proxy_server/wtk-relay.c:192-403 | the TXREADY bits are exactly the legs whose TXREADY was accepted since the last heartbeat, as an observer of the datagrams counts them |
| `RelaySafety.EnteredWhenBothReady` | wtkrtc_proxy_server/wtk-relay.c:327-403 | NATTED and P2PED are entered only after TXREADY from both legs since the last heartbeat, NATTED iff the IPs differ |
| `RelayEvents.ChangesAreAnnounced` | wtkrtc_proxy_server/wtk-relay.c:127-403 | the second TXCNT exchanges the packets of the legs; every move to NATTED or P2PED and every new address of a connected leg sends each leg, at its present address, the last packet of the other with the bytes 216, 1 and 3, 4 or 2 |
| `RelayEvents.HeartbeatReachesPeer` | wtkrtc_proxy_server/wtk-relay.c:236-326 | a heartbeat of the left leg of a connected route goes to the right address only, and one of the right leg to the left, with the sender address, event 0, 1 or 5 by the placement of the legs, and the same token |
| `RelayLookup.AfterComplete` | wtkrtc_proxy_server/misc_lib.c:204-247 | while live routes share no leg every live route is exactly once in the bucket of each of its legs |
| `RelayLookup.IndexEqualsScan` | wtkrtc_proxy_server/misc_lib.c:165-203 | the bucketed lookup returns the route and the side that a scan of all live routes returns |
| `RelayLookup.LookupAfterRun` | wtkrtc_proxy_server/misc_lib.c:165-247 | the same after any datagrams, while live routes share no leg and call number 0 is not used |
| `RelayLookup.MediaReachesPeer` | wtkrtc_proxy_server/wtk-relay.c:445-463 | while live routes share no leg: a mini frame of a left leg goes unchanged to the right address and nowhere else, one of a right leg to the left, and it is dropped when it has no route |
| `RelayLookup.LegReleasesIffSetted` | wtkrtc_proxy_server/wtk-relay.c:404-436 | while live routes share no leg: a HANGUP or TXREJ from a leg of a live route releases the route iff it is SETTED, so one that is NATTED or P2PED is not released |
| `RelayLookup.JoinedRouteStays` | wtkrtc_proxy_server/wtk-relay.c:127-436 | TXCNT and TXREADY from both legs reach a route that is NATTED, or P2PED for one IP address; then no HANGUP or TXREJ changes or sends anything |
| `RelayLookup.VideoPassedOnce` | wtkrtc_proxy_server/wtk-relay.c:89-111 | a video frame, which falls through to the mini frame code, is passed on a second time iff the sender has a leg with call number 0; in proper use nobody has |
| `RelayLookup.ZeroIsFound` | wtkrtc_proxy_server/wtk-relay.c:89-191 | two TXCNT datagrams, the first with call number 0, reach a state in which that leg is found under 0 and its video frame is passed on once more |
| `RelayLookup.SuchFramesExist` | wtkrtc_proxy_server/wtk-relay.c:127-436 | the bytes of such TXCNT, TXREADY and HANGUP datagrams |
| `RelayRuns.CallIsSetUp` | wtkrtc_proxy_server/wtk-relay.c:127-191 | two TXCNTs with one token from two phones: nothing is sent for the first, each phone gets the packet of the other for the second, and one SETTED route joins them |
| `RelayRuns.JoinedIffSameToken` | wtkrtc_proxy_server/wtk-relay.c:139-191 | two TXCNTs are joined iff the first token begins the second; else there are two routes in SETTING and nothing is sent |
| `RelayRuns.MediaCrosses` | wtkrtc_proxy_server/wtk-relay.c:445-463 | after them a mini frame of either phone goes to the other phone only, and one from anybody else is dropped |
| `RelayRuns.VideoCrosses` | wtkrtc_proxy_server/wtk-relay.c:89-111 | the same for video frames when no call number is 0 |
| `RelayRuns.HeartbeatCrosses` | wtkrtc_proxy_server/wtk-relay.c:236-326 | the same for heartbeats, with event 0 or 1 by the IP addresses |
| `RelayRuns.PhoneMoves` | wtkrtc_proxy_server/wtk-relay.c:207-235 | after a heartbeat from a new address both phones are told there, and what the other one sends goes to the new address |
| `RelayRuns.ConnectionIsTold` | wtkrtc_proxy_server/wtk-relay.c:327-403 | TXREADY of the first phone sends nothing; that of the second sends each the packet of the other with event 3, or 4 for one IP address |
| `RelayRuns.CallEnds` | wtkrtc_proxy_server/wtk-relay.c:404-436 | HANGUP or TXREJ of either phone goes to the other, the route is RELEASING or RELEASED, and no mini frame is passed on any more |
| `RelayServer.Server.FindByAddrAndCallno` | wtkrtc_proxy_server/misc_lib.c:165-203 | the loop over a bucket returns what the lookup function returns |
| `RelayServer.Server.AddRoute` | wtkrtc_proxy_server/misc_lib.c:204-215 | one entry is added to one bucket, all other entries stay, and an entry of a live route with that call number keeps the index free of others |
| `RelayServer.Server.DelRoute` | wtkrtc_proxy_server/misc_lib.c:217-247 | the loop unlinks every entry of one bucket whose route has the leg, and no other entry of any bucket |
| `RelayServer.Server.TxCntFrame` | wtkrtc_proxy_server/wtk-relay.c:127-191 | the in-place update and the sends for TXCNT are those of the state machine; the invariant is kept and every route changes as its status allows |
| `RelayServer.Server.HeartbeatFrame` | wtkrtc_proxy_server/wtk-relay.c:192-326 | the same for a heartbeat |
| `RelayServer.Server.TxReadyFrame` | wtkrtc_proxy_server/wtk-relay.c:327-403 | the same for TXREADY |
| `RelayServer.Server.OtherFrame` | wtkrtc_proxy_server/wtk-relay.c:404-442 | the same for HANGUP, TXREJ and other full frames |
| `RelayServer.Server.ProcessUdp` | wtkrtc_proxy_server/wtk-relay.c:69-465 | the same for any datagram; besides, every change is told to both legs at their present addresses, by exactly the datagrams that the call sends |
| `RfcommStream.UntilOkConserved` | wtkrtc_server/asterisk-11.16.0/addons/chan_mobile.c:1575-1665 | the reader of text messages loses, doubles and moves no character: what it consumed is its output and then CR LF OK CR LF, or on failure an unfinished one at the end of the input |
| `RfcommStream.LineRead` | wtkrtc_server/asterisk-11.16.0/addons/chan_mobile.c:1530-1551 | a line without CR is read to its end and no further |
| `RfcommStream.TextMessageEnds` | wtkrtc_server/asterisk-11.16.0/addons/chan_mobile.c:1575-1665 | any text of lines without a CR is read to its end and no further iff a search of its lines, which takes an empty line together with the next one or two, sees the end behind them |
| `RfcommStream.TextRead` | wtkrtc_server/asterisk-11.16.0/addons/chan_mobile.c:1575-1665 | for any such text, what is read: the whole text, the lines before an empty line and a line OK, or the text with its OK and what follows |
| `RfcommStream.EmptyLinesByThree` | wtkrtc_server/asterisk-11.16.0/addons/chan_mobile.c:1575-1665 | a text of non-empty lines and k empty ones behind them is read to its end iff k is a multiple of three |
| `RfcommStream.SuchTexts` | wtkrtc_server/asterisk-11.16.0/addons/chan_mobile.c:1575-1665 | the lines a, empty, O miss the end, one more empty line finds it, and a, empty, OK, b ends after a |
| `RfcommStream.MessageRead` | wtkrtc_server/asterisk-11.16.0/addons/chan_mobile.c:2782-2827 | each printed result, command, prompt and text message is read back as one message and nothing behind it is touched |
| `RfcommStream.StreamRoundTrip` | wtkrtc_server/asterisk-11.16.0/addons/chan_mobile.c:1774-2827 | any list of printed messages is read back in order, one call each, from exactly its characters; a longer text is cut to the buffer; the text messages are those whose end the reader sees |
| `RfcommEdges.PrintedForms` | wtkrtc_server/asterisk-11.16.0/addons/chan_mobile.c:1745-1772 | the characters of the four kinds of messages |
| `RfcommEdges.CutOff` | wtkrtc_server/asterisk-11.16.0/addons/chan_mobile.c:1691-1791 | a message that the end of the input cuts off fails as the read does, with what was read |
| `RfcommEdges.NotWellFormed` | wtkrtc_server/asterisk-11.16.0/addons/chan_mobile.c:1474-1723 | no LF behind the first CR, or no blank behind >, ends the message with -2, and that character is lost |
| `RfcommEdges.CrIsText` | wtkrtc_server/asterisk-11.16.0/addons/chan_mobile.c:1530-1551 | a CR inside of a line is text with the character behind it, so CR CR LF does not end the line |
| `RfcommEdges.SmallBuffer` | wtkrtc_server/asterisk-11.16.0/addons/chan_mobile.c:1711-1719 | with room for less than five characters a line with +CMGR is read as a result code |
| `RfcommEdges.LargeBuffer` | wtkrtc_server/asterisk-11.16.0/addons/chan_mobile.c:1672-1719 | with that room it is read as a text message |
| `RfcommEdges.BufferKeepsPrefix` | wtkrtc_server/asterisk-11.16.0/addons/chan_mobile.c:1474-1480 | the buffer holds the longest prefix of the output that fits |
| `RfcommReader.Reader.ReadUntilCrlf` | wtkrtc_server/asterisk-11.16.0/addons/chan_mobile.c:1530-1551 | the loop consumes, appends and returns what the line function says; the buffer is the longest prefix of the output that fits |
| `RfcommReader.Reader.ReadUntilOk` | wtkrtc_server/asterisk-11.16.0/addons/chan_mobile.c:1575-1665 | the same for the text message reader with its partial matches |
| `RfcommReader.Reader.ReadOk` | wtkrtc_server/asterisk-11.16.0/addons/chan_mobile.c:1586-1659 | the comparisons with CR LF OK CR LF stop at the first difference and put back what had matched |
| `RfcommReader.Reader.ReadResult` | wtkrtc_server/asterisk-11.16.0/addons/chan_mobile.c:1691-1723 | the same for a result code, a prompt or a text message |
| `RfcommReader.Reader.ReadCommand` | wtkrtc_server/asterisk-11.16.0/addons/chan_mobile.c:1729-1743 | the same for a command |
| `RfcommReader.Reader.ReadMessage` | wtkrtc_server/asterisk-11.16.0/addons/chan_mobile.c:2782-2827 | one call returns the number of buffered characters or the failed result, and leaves the rest of the stream |
| `CindParser.Hfp.ParseCindTest` | wtkrtc_server/asterisk-11.16.0/addons/chan_mobile.c:2676-2771 | the loop over the names computes the run of the eight-state parser |
| `CindParser.Hfp.ParseCind` | wtkrtc_server/asterisk-11.16.0/addons/chan_mobile.c:2626-2669 | the loop over the values computes the run of the three-state parser |
| `CindParser.Hfp.HandleCiev` | wtkrtc_server/asterisk-11.16.0/addons/chan_mobile.c:2111-2129 | a report changes the one slot it names, if it is one of the 16, and tells the kind stored for it |
| `CindParser.IndicatorRead` | wtkrtc_server/asterisk-11.16.0/addons/chan_mobile.c:2600-2771 | for up to 15 names and as many values, printed and parsed, the slot of an indicator holds the value at its position |
| `CindParser.IndicatorMissing` | wtkrtc_server/asterisk-11.16.0/addons/chan_mobile.c:2600-2617 | an indicator the phone does not name keeps its old number |
| `CindParser.NamesAreRead` | wtkrtc_server/asterisk-11.16.0/addons/chan_mobile.c:2725-2755 | by the printed names: the last service, call, callsetup or call_setup, callheld, signal, roam or battchg at position i gives its indicator the number i + 1, the value at i is in that slot, and a report with that number tells that indicator |
| `CindParser.OtherNames` | wtkrtc_server/asterisk-11.16.0/addons/chan_mobile.c:2756-2759 | a position is told as unknown iff its name is none of these eight |
| `CindParser.UnknownName` | wtkrtc_server/asterisk-11.16.0/addons/chan_mobile.c:2756-2759 | such a name changes no number |
| `CindParser.NoCallSetupRead` | wtkrtc_server/asterisk-11.16.0/addons/chan_mobile.c:2682-2742 | the phone counts as one without call setup iff it printed neither of the two names |
| `CindParser.ServiceMissing` | wtkrtc_server/asterisk-11.16.0/addons/chan_mobile.c:1335-1348 | a phone that prints no service is taken to have it |
| `CindParser.LooseNameIsRead` | wtkrtc_server/asterisk-11.16.0/addons/chan_mobile.c:2685-2765 | other characters before a name, between it and its range, and one behind the range are skipped |
| `CindParser.NumberIsRead` | wtkrtc_server/asterisk-11.16.0/addons/chan_mobile.c:2606-2613 | a value is read with or without a sign up to the first character that is no digit |
| `CindParser.NothingBehindComma` | wtkrtc_server/asterisk-11.16.0/addons/chan_mobile.c:2632-2669 | a comma behind the last value stores nothing more, and a text without a blank stores nothing |
| `CindParser.PrintedForm` | wtkrtc_server/asterisk-11.16.0/addons/chan_mobile.c:2632-2688 | the characters of the two lists |
| `CindParser.ServiceRead` | wtkrtc_server/asterisk-11.16.0/addons/chan_mobile.c:1335-1348 | the service check is true iff the phone printed 1 for the last service |
| `CindParser.CallRead` | wtkrtc_server/asterisk-11.16.0/addons/chan_mobile.c:3170-3174 | the check for a call in progress is true iff the phone printed a value other than 0 for call |
| `CindParser.NamesFit` | wtkrtc_server/asterisk-11.16.0/addons/chan_mobile.c:2676-2771 | the stored names stay in the 16 slots iff there are at most 15 of them; the code compares with the size in bytes |
| `CindParser.SixteenNames` | wtkrtc_server/asterisk-11.16.0/addons/chan_mobile.c:2676-2771 | with 16 names the last one is stored in the place behind the array |
| `HfpHandshake.HandshakeSafe` | wtkrtc_server/asterisk-11.16.0/addons/chan_mobile.c:3658-3851 | at every point of every interleaving of replies, requests, losses and restarts: at most one initialisation entry is queued, exactly one while the phone is monitored and not initialised, and initialized is set only after OK to the five requests in the order of the kind of phone |
| `HfpRuns.InitialisationEnds` | wtkrtc_server/asterisk-11.16.0/addons/chan_mobile.c:3658-3851 | for either kind of phone: a run of the start and the 11 replies that are waited for, 9 without messages, in which initialized is set after the five OKs, no entry is left, and messages are supported at the end iff they were at the start |
| `HfpRuns.OrderOfRequests` | wtkrtc_server/asterisk-11.16.0/addons/chan_mobile.c:3131-3243 | the queue before each of these replies, for a phone that is no blackberry: BRSF, then CIND test, CIND, CMER, CLIP, VGS, CMGF and CNMI |
| `HfpRuns.OrderForBlackberry` | wtkrtc_server/asterisk-11.16.0/addons/chan_mobile.c:3131-3243 | the same for a blackberry, with CMER before the CIND test |
| `HfpEffects.MessagesSupported` | wtkrtc_server/asterisk-11.16.0/addons/chan_mobile.c:3239-3337 | OK to CNMI makes has_sms true, ERROR to CMGF or CNMI makes it false, and every other reply leaves it |
| `HfpEffects.InitializedByClip` | wtkrtc_server/asterisk-11.16.0/addons/chan_mobile.c:3206-3218 | initialized becomes true exactly by OK to CLIP with the gain sent, and no reply clears it |
| `HfpEffects.CallerIdNeeded` | wtkrtc_server/asterisk-11.16.0/addons/chan_mobile.c:3394-3532 | a caller id is needed as CIEV says, until CLIP comes for the front entry |
| `HfpEffects.Disconnects` | wtkrtc_server/asterisk-11.16.0/addons/chan_mobile.c:3054-3634 | for every reply, when exactly its handler fails |
| `HfpEffects.OkSends` | wtkrtc_server/asterisk-11.16.0/addons/chan_mobile.c:3131-3284 | for OK to each kind of front entry: which entry comes off and which is queued |
| `HfpEffects.KindSends` | wtkrtc_server/asterisk-11.16.0/addons/chan_mobile.c:3054-3122 | the same for BRSF and CIND |
| `HfpEffects.ErrorSends` | wtkrtc_server/asterisk-11.16.0/addons/chan_mobile.c:3292-3385 | the same for ERROR: only VGS is followed by another request |
| `HfpEffects.OthersSend` | wtkrtc_server/asterisk-11.16.0/addons/chan_mobile.c:3481-3634 | a RING queues the entry for CLIP while a caller id is needed, a message alert that for CMGR, the prompt that for OK, and a CLIP without a channel that for the hang-up |
| `HfpEffects.NotForFront` | wtkrtc_server/asterisk-11.16.0/addons/chan_mobile.c:3054-3385 | BRSF, CIND, OK and ERROR that are not for the front entry change nothing |
| `HfpEffects.CallerIdIsRead` | wtkrtc_server/asterisk-11.16.0/addons/chan_mobile.c:3394-3532 | CIEV, RING and CLIP of an incoming call: the entry is queued and taken off, and the caller id is no longer needed |
| `HfpEffects.StartsAndEnds` | wtkrtc_server/asterisk-11.16.0/addons/chan_mobile.c:3658-3851 | a start queues BRSF, a request its entry; the end of the monitor leaves no entry and no initialized phone |
| `HfpHandshake.ReplyLowersRank` | wtkrtc_server/asterisk-11.16.0/addons/chan_mobile.c:3054-3385 | no reply takes the initialisation back; a reply that answers its entry at the front takes it strictly forward or disconnects |
| `HfpHandshake.ReplyAdvances` | wtkrtc_server/asterisk-11.16.0/addons/chan_mobile.c:3054-3385 | an answered stage is followed by a later stage or the end of the initialisation |
| `HfpHandshake.OtherReplies` | wtkrtc_server/asterisk-11.16.0/addons/chan_mobile.c:3292-3634 | every other reply leaves the initialisation entries and what was answered as they are |
| `HfpHandshake.QueueIsFifo` | wtkrtc_server/asterisk-11.16.0/addons/chan_mobile.c:2840-2901 | after any pushes and pops, what was popped and what is queued are together what was queued and pushed, in that order |
| `HfpMonitor.Monitor.HandleBrsf` | wtkrtc_server/asterisk-11.16.0/addons/chan_mobile.c:3054-3080 | the in-place handler has the effect of the BRSF rule; unless it fails the initialisation stands as it should and is nearer to its end when its entry was at the front |
| `HfpMonitor.Monitor.HandleCind` | wtkrtc_server/asterisk-11.16.0/addons/chan_mobile.c:3089-3122 | the same for CIND |
| `HfpMonitor.Monitor.HandleOk` | wtkrtc_server/asterisk-11.16.0/addons/chan_mobile.c:3131-3284 | the same for OK, in both orders of the initialisation |
| `HfpMonitor.Monitor.HandleError` | wtkrtc_server/asterisk-11.16.0/addons/chan_mobile.c:3292-3385 | the same for ERROR |
| `HfpMonitor.Monitor.HandleMessage` | wtkrtc_server/asterisk-11.16.0/addons/chan_mobile.c:3658-3851 | one round of the monitor, with the clean-up when its handler fails: never more than one initialisation entry is queued, initialized is set only after the five OKs in their order, the initialisation never goes back, and an answer to its front entry takes it forward |
| `BestCapability.GetBestMatchedCapability` | webrtc_r67_patch/modules/video_capture/device_info_impl.cc:115-220 | for a list of positive heights: -1 iff the list is empty or the requested height is not positive; else the capability is lexicographically best (height, width, frame rate met or highest) and the index is the one the format rules choose |
| `BestCapability.BestIffUnbeaten` | webrtc_r67_patch/modules/video_capture/device_info_impl.cc:131-220 | the declarative optimum (smallest not below the request, else largest) is exactly what no capability beats pairwise |
| `BestCapability.ChosenIsUnique` | webrtc_r67_patch/modules/video_capture/device_info_impl.cc:157-187 | list and request determine the index |
| `BestCapability.AnchorIsFirstBest` | webrtc_r67_patch/modules/video_capture/device_info_impl.cc:115-220 | the anchor of the index rules is the first capability of the list that is an optimum |
| `BestCapability.CandidateIs` | webrtc_r67_patch/modules/video_capture/device_info_impl.cc:155-187 | a candidate has the size of the anchor, is not before it, and has its frame rate or a lower one that meets the request |
| `BestCapability.ReturnedIndex` | webrtc_r67_patch/modules/video_capture/device_info_impl.cc:157-187 | the last candidate when the request is met exactly; else the first in the requested format; else the last in I420, YUY2 or YV12, or the anchor; the anchor when no format is requested |
| `BestCapability.TypeHonoured` | webrtc_r67_patch/modules/video_capture/device_info_impl.cc:166-187 | a candidate in the requested format is honoured iff the request is not met exactly or the last candidate has that format |
| `BestCapability.FormatIsLost` | webrtc_r67_patch/modules/video_capture/device_info_impl.cc:157-187 | of 640x480 at 30 in I420 and in YUY2, asked for the first, the second is returned and nothing else can be |
| `AdsiCompiler.Compiler.FindByName` | wtkrtc_server/asterisk-11.16.0/apps/app_adsiprog.c:574-581 | the loop of a lookup returns the first entry equal up to case |
| `AdsiCompiler.Compiler.GetKeyByName` | wtkrtc_server/asterisk-11.16.0/apps/app_adsiprog.c:553-572 | a soft key is found or appended with number position + 2, up to 62; the entry is the one the name stands for and only undefined keys are added |
| `AdsiCompiler.Compiler.GetSubByName` | wtkrtc_server/asterisk-11.16.0/apps/app_adsiprog.c:574-593 | the same for a subscript with its position as number, up to 128 |
| `AdsiCompiler.Compiler.StateLine` | wtkrtc_server/asterisk-11.16.0/apps/app_adsiprog.c:1158-1171 | a state is declared once, with number position + 1, up to 254 |
| `AdsiCompiler.Compiler.FlagLine` | wtkrtc_server/asterisk-11.16.0/apps/app_adsiprog.c:1172-1185 | the same for a flag, up to 7 |
| `AdsiCompiler.Compiler.DisplayLine` | wtkrtc_server/asterisk-11.16.0/apps/app_adsiprog.c:1186-1262 | the same for a display, up to 62, with its truncated texts and qualifiers |
| `AdsiCompiler.Compiler.ShowKeysArgs` | wtkrtc_server/asterisk-11.16.0/apps/app_adsiprog.c:645-693 | the loop writes up to six key numbers, an unset one for an invalid token, and the flag of UNLESS; each number is that of the key its token names |
| `AdsiCompiler.Compiler.OnEventCommand` | wtkrtc_server/asterisk-11.16.0/apps/app_adsiprog.c:816-878 | ONEVENT with its loop over up to eight states |
| `AdsiCompiler.Compiler.AddArgs` | wtkrtc_server/asterisk-11.16.0/apps/app_adsiprog.c:645-878 | whatever a command writes names entries of the tables, which grow by undefined entries only |
| `AdsiCompiler.Compiler.WriteCode` | wtkrtc_server/asterisk-11.16.0/apps/app_adsiprog.c:948-975 | a code of a soft key is stored iff the sizes of the codes together keep within 20 bytes |
| `AdsiCompiler.Compiler.WriteInstr` | wtkrtc_server/asterisk-11.16.0/apps/app_adsiprog.c:977-1012 | an instruction is stored iff header, instructions and separators keep within 255 bytes, or 1600 for main |
| `AdsiCompiler.Compiler.ProcessReturncodeLine` | wtkrtc_server/asterisk-11.16.0/apps/app_adsiprog.c:948-975 | a line of a soft key; the invariant of the compiler is kept |
| `AdsiCompiler.Compiler.ProcessOpcodeLine` | wtkrtc_server/asterisk-11.16.0/apps/app_adsiprog.c:977-1012 | a line with a command of a subscript; the invariant is kept |
| `AdsiCompiler.Compiler.KeyLine` | wtkrtc_server/asterisk-11.16.0/apps/app_adsiprog.c:1051-1122 | a key definition with names cut to 18 and 7 characters; the invariant is kept |
| `AdsiCompiler.Compiler.SubLine` | wtkrtc_server/asterisk-11.16.0/apps/app_adsiprog.c:1123-1157 | a subscript definition with its header; the invariant is kept |
| `AdsiCompiler.Compiler.EndSubLine` | wtkrtc_server/asterisk-11.16.0/apps/app_adsiprog.c:1317-1329 | ENDSUB leaves the subscript with its length and its count, and IF blocks that can be read back |
| `AdsiCompiler.Compiler.EndIfLine` | wtkrtc_server/asterisk-11.16.0/apps/app_adsiprog.c:1282-1287 | ENDIF leaves instructions whose IF blocks can be read back by their counts |
| `AdsiCompiler.Compiler.InIfLine` | wtkrtc_server/asterisk-11.16.0/apps/app_adsiprog.c:1280-1313 | the lines inside of an IF; the invariant is kept |
| `AdsiCompiler.Compiler.AdsiProcess` | wtkrtc_server/asterisk-11.16.0/apps/app_adsiprog.c:1014-1360 | one line changes the compiler as its line function says, keeps the invariant, and no entry loses its name or number |
| `AdsiCompiler.Compiler.CompileScript` | wtkrtc_server/asterisk-11.16.0/apps/app_adsiprog.c:1362-1442 | the whole file: the script is returned iff no key or subscript definition is open and every named key and subscript is defined; then every written number denotes a definition, the records are short, and every subscript but one with an open IF has its length and count |
| `AdsiLinks.LookupIsStable` | wtkrtc_server/asterisk-11.16.0/apps/app_adsiprog.c:553-643 | a second lookup in any case of letters gives the first entry iff the name fits the 39 characters of its field |
| `AdsiLinks.LongNameIsLost` | wtkrtc_server/asterisk-11.16.0/apps/app_adsiprog.c:574-593 | a second lookup of a name of 40 letters adds a second subscript |
| `AdsiLinks.NumbersAreUnique` | wtkrtc_server/asterisk-11.16.0/apps/app_adsiprog.c:553-643 | numbers and entries of a table correspond one to one |
| `AdsiLinks.WriteOk` | wtkrtc_server/asterisk-11.16.0/apps/app_adsiprog.c:645-878 | whatever a command writes names entries of the tables, which only grew by undefined ones |
| `AdsiSteps.AfterKeeps` | wtkrtc_server/asterisk-11.16.0/apps/app_adsiprog.c:1014-1360 | after any lines: numbers, limits, lengths, counts and IF blocks are as the invariant of the compiler says |
| `AdsiSteps.ParsesClosed` | wtkrtc_server/asterisk-11.16.0/apps/app_adsiprog.c:1282-1287 | the count stored by ENDIF lets a reader find the block of the IF |
| `AdsiNames.NamesKeepNumbers` | wtkrtc_server/asterisk-11.16.0/apps/app_adsiprog.c:574-593 | a subscript that was found by its name is found under the same unique number after any further lines |
| `AdsiNames.TargetIsNamed` | wtkrtc_server/asterisk-11.16.0/apps/app_adsiprog.c:791-878 | GOTO and ONEVENT write the number of the subscript they name; every state number of ONEVENT is 0 |
| `AdsiNames.IfTargetIsNamed` | wtkrtc_server/asterisk-11.16.0/apps/app_adsiprog.c:1288-1308 | the GOTO of an IF writes the event of its IF and the number of the subscript it names |
| `AdsiNames.FlagIsNamed` | wtkrtc_server/asterisk-11.16.0/apps/app_adsiprog.c:645-693 | the flag of an UNLESS clause is the declared flag of that name, or 0 when there is none |
| `AdsiNames.KeysAreNamed` | wtkrtc_server/asterisk-11.16.0/apps/app_adsiprog.c:645-693 | SHOWKEYS writes, token by token, the number of the key that is named |
| `AdsiLines.SameUpToCase` | wtkrtc_server/asterisk-11.16.0/apps/app_adsiprog.c:574-581 | names are compared letter by letter without regard to case |
| `AdsiLines.SubIsAdded` | wtkrtc_server/asterisk-11.16.0/apps/app_adsiprog.c:574-593 | a subscript that is not found is added with its position and 39 characters of its name, up to 128 |
| `AdsiLines.KeyIsAdded` | wtkrtc_server/asterisk-11.16.0/apps/app_adsiprog.c:553-572 | the same for a soft key with its position plus 2, up to 62 |
| `AdsiLines.QuotedIs` | wtkrtc_server/asterisk-11.16.0/apps/app_adsiprog.c:189-200 | a token in quotes is cut to a length; anything else is none |
| `AdsiLines.EventNumbers` | wtkrtc_server/asterisk-11.16.0/apps/app_adsiprog.c:78-540 | the 24 names of events have the numbers 1 to 24, and any other name 0 |
| `AdsiLines.CommandIs` | wtkrtc_server/asterisk-11.16.0/apps/app_adsiprog.c:948-1012 | a command is the first of its table with that name up to case, and a name that is in no entry is none |
| `AdsiLines.CommandWrites` | wtkrtc_server/asterisk-11.16.0/apps/app_adsiprog.c:948-1012 | what a command writes by the kind of its arguments: its byte, given bytes, keys, a subscript or an event |
| `AdsiLines.UnlessIsWritten` | wtkrtc_server/asterisk-11.16.0/apps/app_adsiprog.c:645-693 | the flag of an UNLESS clause behind at most six keys is in the instruction, the keys are those without the clause, and without a clause the flag is 0 |
| `AdsiLines.FlagIsThatOfName` | wtkrtc_server/asterisk-11.16.0/apps/app_adsiprog.c:657-668 | that flag is the number of the first declared flag of the name, and 0 for a missing, unquoted or undeclared one |
| `AdsiLines.SeventhKeyIsIgnored` | wtkrtc_server/asterisk-11.16.0/apps/app_adsiprog.c:672-676 | a seventh key is not read |
| `AdsiLines.ClauseIsCounted` | wtkrtc_server/asterisk-11.16.0/apps/app_adsiprog.c:832-856 | an IN clause of states is counted iff there are at most eight and all are declared |
| `AdsiLines.OnEventWrites` | wtkrtc_server/asterisk-11.16.0/apps/app_adsiprog.c:816-878 | ONEVENT with such a clause writes the number of the event, that of the subscript and a 0 for each state |
| `AdsiLines.OnEventIsRefused` | wtkrtc_server/asterisk-11.16.0/apps/app_adsiprog.c:816-866 | without a known event, or with nothing behind its clause, it writes nothing |
| `AdsiLines.KeyOpens` | wtkrtc_server/asterisk-11.16.0/apps/app_adsiprog.c:1051-1122 | KEY opens a key that is not defined, with its names and a length of 5 bytes more |
| `AdsiLines.KeyNamesAre` | wtkrtc_server/asterisk-11.16.0/apps/app_adsiprog.c:1068-1093 | when the names of a key are well formed |
| `AdsiLines.LongNamesAreCut` | wtkrtc_server/asterisk-11.16.0/apps/app_adsiprog.c:1094-1121 | the names of a key are cut to 18 and 7 characters |
| `AdsiLines.CodeIsAdded` | wtkrtc_server/asterisk-11.16.0/apps/app_adsiprog.c:948-975 | a code is added to the key iff all codes then have at most 20 bytes, and is dropped otherwise |
| `AdsiLines.KeyEnds` | wtkrtc_server/asterisk-11.16.0/apps/app_adsiprog.c:1267-1275 | ENDKEY defines the key with its length less two |
| `AdsiLines.SubOpens` | wtkrtc_server/asterisk-11.16.0/apps/app_adsiprog.c:1123-1157 | SUB opens a subscript that is not defined, with 3 bytes for main and 7 for others |
| `AdsiLines.CommandIsAdded` | wtkrtc_server/asterisk-11.16.0/apps/app_adsiprog.c:977-1012 | a command that fits is added with its separator and counted, also in an open IF |
| `AdsiLines.CommandIsRefused` | wtkrtc_server/asterisk-11.16.0/apps/app_adsiprog.c:977-1012 | one that would pass 255 bytes, or 1600 for main, is not |
| `AdsiLines.SubEnds` | wtkrtc_server/asterisk-11.16.0/apps/app_adsiprog.c:1316-1326 | ENDSUB defines the subscript with its length less two and, but for main, the number of its instructions |
| `AdsiLines.IfOpensBlock` | wtkrtc_server/asterisk-11.16.0/apps/app_adsiprog.c:1327-1353 | IFEVENT adds its header of 4 bytes and begins to count |
| `AdsiLines.GotoInIf` | wtkrtc_server/asterisk-11.16.0/apps/app_adsiprog.c:1288-1308 | GOTO in an IF adds 4 bytes with the event of the IF and the number of the subscript |
| `AdsiLines.IfEndsBlock` | wtkrtc_server/asterisk-11.16.0/apps/app_adsiprog.c:1282-1287 | ENDIF stores the count in the header and marks the subscript as defined |
| `AdsiLines.StateIsDeclared` | wtkrtc_server/asterisk-11.16.0/apps/app_adsiprog.c:1158-1171 | a state is declared once, with its position plus 1, up to 254 |
| `AdsiLines.FlagIsDeclared` | wtkrtc_server/asterisk-11.16.0/apps/app_adsiprog.c:1172-1185 | a flag is declared once, with its position plus 1, up to 7 |
| `AdsiLines.DisplayIsDeclared` | wtkrtc_server/asterisk-11.16.0/apps/app_adsiprog.c:1186-1203 | a display is declared once, with its position plus 1, up to 62 |
| `AdsiLines.OneColumn` | wtkrtc_server/asterisk-11.16.0/apps/app_adsiprog.c:1203-1262 | a display with one text of at most 20 characters has 6 bytes more, and a header unless a qualifier is wrong; without IS and a text it stays empty |
| `AdsiLines.TwoColumns` | wtkrtc_server/asterisk-11.16.0/apps/app_adsiprog.c:1215-1262 | two columns cut to 20 characters, with 6 bytes more, and a header unless a qualifier is wrong |
| `AdsiLines.QualifiersAre` | wtkrtc_server/asterisk-11.16.0/apps/app_adsiprog.c:1234-1256 | the last justification and any WRAP count; any other word, or an unknown justification, spoils the display, a JUSTIFY at the end does not |
| `AdsiLines.UnknownLine` | wtkrtc_server/asterisk-11.16.0/apps/app_adsiprog.c:1014-1360 | a line that is no command and no word of its place changes nothing |
| `AdsiLines.BadIfLine` | wtkrtc_server/asterisk-11.16.0/apps/app_adsiprog.c:1288-1341 | an IFEVENT of an unknown event or without THEN, and a GOTO without a name in quotes, do nothing |
| `AdsiLines.CompiledIff` | wtkrtc_server/asterisk-11.16.0/apps/app_adsiprog.c:1362-1442 | the script after all lines is returned iff it is not inside a key or subscript and everything named is defined; before any line only main is named |
| `AdsiResults.LinksAreSound` | wtkrtc_server/asterisk-11.16.0/apps/app_adsiprog.c:1417-1441 | in a returned script every subscript and key number that was written is that of a defined entry |
| `AdsiResults.SubsAreWellFormed` | wtkrtc_server/asterisk-11.16.0/apps/app_adsiprog.c:1314-1326 | in a returned script the length and count bytes of every subscript are right and its IF blocks can be read back, except for the one whose IF the end of the file left open: its length and count are 0 |
| `AdsiResults.LengthsAreStored` | wtkrtc_server/asterisk-11.16.0/apps/app_adsiprog.c:1314-1442 | in a returned script all lengths and counts are right iff the file does not end inside of an IF, or the missing ones would be 0 modulo 256 |
| `AdsiResults.RecordsAreShort` | wtkrtc_server/asterisk-11.16.0/apps/app_adsiprog.c:1094-1262 | key records have 5 to 50 bytes and display records at most 46, with right length bytes |
| `AdsiResults.UnclosedIfIsReturned` | wtkrtc_server/asterisk-11.16.0/apps/app_adsiprog.c:1402-1441 | a file whose last subscript closes one IF and leaves another open is compiled, when all else is defined; that subscript has grown by 8 bytes and has length 0 |
| `AdsiResults.MainIsOpen` | wtkrtc_server/asterisk-11.16.0/apps/app_adsiprog.c:1123-1157 | the one-line file that such a file can begin with: main is open and has 3 bytes |
| `AdsiResults.MainWithoutLength` | wtkrtc_server/asterisk-11.16.0/apps/app_adsiprog.c:1282-1442 | four such lines, SUB main, IFEVENT, ENDIF, IFEVENT, compile to a main subscript of 11 bytes whose length is 0 |
| `AdsiResults.SuchLinesExist` | wtkrtc_server/asterisk-11.16.0/apps/app_adsiprog.c:1282-1353 | SUB main IS, IFEVENT CALLERID THEN and ENDIF are lines as such a file needs |
| `AdsiBudget.LengthIsBounded` | wtkrtc_server/asterisk-11.16.0/apps/app_adsiprog.c:977-1354 | after any lines every subscript is past its limit of 255 bytes, or 1600 for main, by at most four bytes for each IF and each GOTO of an IF |
| `AdsiBudget.WithoutIfWithinLimit` | wtkrtc_server/asterisk-11.16.0/apps/app_adsiprog.c:977-1012 | a subscript without an IF keeps the limit |
| `AdsiBudget.NoBoundOnGotos` | wtkrtc_server/asterisk-11.16.0/apps/app_adsiprog.c:1288-1310 | with k GOTOs in an IF, for any k, main compiles to 7 + 4k bytes |
| `AdsiBudget.SuchLinesExist` | wtkrtc_server/asterisk-11.16.0/apps/app_adsiprog.c:1288-1329 | GOTO main and ENDSUB are lines as such a file needs |
| `AdsiPacking.Transmit` | wtkrtc_server/asterisk-11.16.0/apps/app_adsiprog.c:1477-1547 | the loop sends the messages of the packing function |
| `AdsiPacking.BytesAreConserved` | wtkrtc_server/asterisk-11.16.0/apps/app_adsiprog.c:1477-1547 | the messages together are all bytes of all records, in order, whatever the lengths |
| `AdsiPacking.SentKeepsOrder` | wtkrtc_server/asterisk-11.16.0/apps/app_adsiprog.c:1477-1547 | every message is a run of whole records, and the runs are the records in order up to empty ones at the end |
| `AdsiPacking.MessagesFitIffRecordsDo` | wtkrtc_server/asterisk-11.16.0/apps/app_adsiprog.c:1477-1547 | every message has at most 253 bytes iff every record has; then none is empty |
| `AdsiPacking.FewestMessages` | wtkrtc_server/asterisk-11.16.0/apps/app_adsiprog.c:1477-1547 | no split of the records into runs within the limit has fewer messages |
| `AdsiDownload.KeysAreSent` | wtkrtc_server/asterisk-11.16.0/apps/app_adsiprog.c:1477-1500 | the key records of every returned script, byte by byte: length byte right, at most 50 bytes, all sent, within the limit, with the fewest messages |
| `AdsiDownload.DisplaysAreSent` | wtkrtc_server/asterisk-11.16.0/apps/app_adsiprog.c:1501-1524 | the display records of every returned script: at most 46 bytes with a right length byte, sent in order up to empty ones at the end, within the limit, with the fewest messages |
| `AdsiDownload.SubsAreSent` | wtkrtc_server/asterisk-11.16.0/apps/app_adsiprog.c:1525-1547 | the subscript records of every returned script, byte by byte: as long as the compiler counted, all sent in order, in messages that keep the limit iff no subscript has more than 253 bytes; the length byte is right unless the IF of the subscript was left open |
| `AdsiDownload.InstructionBytes` | wtkrtc_server/asterisk-11.16.0/apps/app_adsiprog.c:645-1308 | the bytes of every kind of instruction |
| `AdsiDownload.KeyRecordAt` | wtkrtc_server/asterisk-11.16.0/apps/app_adsiprog.c:1099-1121 | the bytes of a key record at their places: 128, length, number, the names with a separator behind each, the codes |
| `AdsiDownload.DisplayRecordAt` | wtkrtc_server/asterisk-11.16.0/apps/app_adsiprog.c:1213-1262 | the bytes of a display record: 129, length, justification and number, the wrap flag, the columns |
| `AdsiDownload.SubRecordAt` | wtkrtc_server/asterisk-11.16.0/apps/app_adsiprog.c:1137-1440 | the bytes of a subscript record: 130, length, the mark of the last one, the label with number and count for all but main, the instructions |
| `AdsiDownload.SimpleMainFits` | wtkrtc_server/asterisk-11.16.0/apps/app_adsiprog.c:977-1547 | a main subscript with CLEAR k times, up to the 798 there is space for, compiles to 3 + 2k bytes and fits a message iff k is at most 125 |
| `AdsiDownload.ClearIsSimple` | wtkrtc_server/asterisk-11.16.0/apps/app_adsiprog.c:977-1012 | CLEAR is such a line |
| `AnsweringMachine.IsAnsweringMachine` | wtkrtc_server/asterisk-11.16.0/apps/app_amd.c:267-396 | for waiting times that are not negative: the loop with its counters and flags returns the verdict that is defined over the whole history of voice and silence |
| `AnsweringMachine.RoundFollows` | wtkrtc_server/asterisk-11.16.0/apps/app_amd.c:267-389 | in one round the counters decide what the history decides and go on to say what the history says; in particular the word count is the number of stretches behind a long silence that reach the minimum |
| `AnsweringMachine.WordsAfterVoice` | wtkrtc_server/asterisk-11.16.0/apps/app_amd.c:339-346 | voice adds a word exactly when its stretch reaches the minimum for the first time behind a long silence |
| `AnsweringMachine.CountersAreBounded` | wtkrtc_server/asterisk-11.16.0/apps/app_amd.c:283-289 | while nothing is decided: words * minimum <= voice <= total time < time for the analysis |
| `AnsweringMachine.HumanHasTalked` | wtkrtc_server/asterisk-11.16.0/apps/app_amd.c:316-334 | HUMAN only after a stretch that was a word, INITIALSILENCE only before any |
| `AnsweringMachine.LongWordNeedsWait` | wtkrtc_server/asterisk-11.16.0/apps/app_amd.c:347-396 | over every trace: the long word is reported iff the event that decides is one and its wait did not return 0, and NOTSURE is the verdict before the time is up iff it is one and its wait did |
| `AnsweringMachine.LongFrame` | wtkrtc_server/asterisk-11.16.0/apps/app_amd.c:347-396 | one frame of voice that is too long for a word is reported as such when its wait was positive, and as NOTSURE when it returned 0 |
| `AnsweringMachine.LongWordIsLost` | wtkrtc_server/asterisk-11.16.0/apps/app_amd.c:347-396 | 4999 ms of voice with a wait of 0 are NOTSURE, although words end at 1000 ms and the analysis at 5000 ms |
| `AnsweringRules.FrameIsHeard` | wtkrtc_server/asterisk-11.16.0/apps/app_amd.c:276-301 | what each kind of frame adds to the history; one without audio counts as twice the longest wait |
| `AnsweringRules.NoAudioIsSilence` | wtkrtc_server/asterisk-11.16.0/apps/app_amd.c:276-301 | after any number of frames without audio the silence is as long as the time |
| `AnsweringRules.StretchesAreCut` | wtkrtc_server/asterisk-11.16.0/apps/app_amd.c:303-314 | the history is cut exactly at the silences that are long enough, and is whole again with them between its stretches |
| `AnsweringRules.WordsAreCounted` | wtkrtc_server/asterisk-11.16.0/apps/app_amd.c:339-346 | the words are the stretches behind the first with voice of at least the minimum, counted as a set; somebody has talked iff some stretch has that much |
| `AnsweringRules.TimeIsUp` | wtkrtc_server/asterisk-11.16.0/apps/app_amd.c:283-289 | NOTSURE when the time reaches its limit, and before that only for a wait of 0 |
| `AnsweringRules.SilenceDecides` | wtkrtc_server/asterisk-11.16.0/apps/app_amd.c:303-334 | in time, a silence gives INITIALSILENCE, HUMAN or nothing, by its length and whether somebody has talked |
| `AnsweringRules.VoiceDecides` | wtkrtc_server/asterisk-11.16.0/apps/app_amd.c:335-389 | in time, voice gives the long word, MAXWORDS, LONGGREETING or nothing, in this order |
| `AnsweringRules.ShortGreeting` | wtkrtc_server/asterisk-11.16.0/apps/app_amd.c:267-396 | with the usual parameters 400 ms of voice and 800 ms of silence are a human, and 799 ms are not |
| `AnsweringRules.SilentStart` | wtkrtc_server/asterisk-11.16.0/apps/app_amd.c:316-323 | 2500 ms of silence at the start are a machine, and 2499 ms are not |
| `AnsweringRules.LongTalk` | wtkrtc_server/asterisk-11.16.0/apps/app_amd.c:366-373 | 1500 ms of voice with a word before are a machine, and 1499 ms are not |
| `AnsweringRules.ThreeWords` | wtkrtc_server/asterisk-11.16.0/apps/app_amd.c:339-365 | three words of 100 ms behind silences of 50 ms are a machine; with 99 ms in the third they are not |
| `AnsweringRules.ShortPause` | wtkrtc_server/asterisk-11.16.0/apps/app_amd.c:303-346 | two stretches of 70 ms with 49 ms of silence between them are one word |
| `AnsweringRules.LongPause` | wtkrtc_server/asterisk-11.16.0/apps/app_amd.c:303-346 | with 50 ms between them they are none |
| `AnsweringRules.NoAudio` | wtkrtc_server/asterisk-11.16.0/apps/app_amd.c:276-323 | 25 frames without audio are the initial silence |
| `AnsweringRules.TooLong` | wtkrtc_server/asterisk-11.16.0/apps/app_amd.c:283-289 | 5000 ms are too long, and 4999 ms are not |
| `RealtimeCodec.EscapeString` | wtkrtc_server/asterisk-11.16.0/addons/res_config_mysql.c:57-73 | the loop of the macro computes the escaped form |
| `RealtimeCodec.EscapedForm` | wtkrtc_server/asterisk-11.16.0/addons/res_config_mysql.c:57-73 | no semicolon, at most three times the length, no NUL |
| `RealtimeCodec.EscapeRoundTrip` | wtkrtc_server/asterisk-11.16.0/addons/res_config_mysql.c:57-317 | decoding the escaped form gives the string |
| `RealtimeCodec.CodesWritten` | wtkrtc_server/asterisk-11.16.0/addons/res_config_mysql.c:57-73 | the codes of the two characters that are escaped |
| `RealtimeCodec.BlanksRead` | wtkrtc_server/asterisk-11.16.0/addons/res_config_mysql.c:393-407 | NULL gives an empty value and an empty column a blank |
| `RealtimeCodec.CodeIsDecoded` | wtkrtc_server/asterisk-11.16.0/addons/res_config_mysql.c:307-317 | a caret and two hexadecimal digits give the character of that number |
| `RealtimeCodec.OthersStay` | wtkrtc_server/asterisk-11.16.0/addons/res_config_mysql.c:307-317 | a caret without them, and every other character, stays |
| `RealtimeCodec.DecodeChunk` | wtkrtc_server/asterisk-11.16.0/addons/res_config_mysql.c:307-317 | the in-place loop leaves the decoded string and its NUL and touches nothing outside of the piece |
| `RealtimeCodec.StrSep` | wtkrtc_server/asterisk-11.16.0/addons/res_config_mysql.c:399 | a piece is cut off at the first semicolon |
| `RealtimeCodec.ReadColumn` | wtkrtc_server/asterisk-11.16.0/addons/res_config_mysql.c:393-407 | the values of a column, read in place; NULL gives an empty value and an empty column a blank |
| `RealtimeCodec.ColumnRoundTrip` | wtkrtc_server/asterisk-11.16.0/addons/res_config_mysql.c:393-407 | escaped values joined with semicolons read back as themselves iff there is at least one value and not just one empty value |
| `RealtimeCodec.WriteAndRead` | wtkrtc_server/asterisk-11.16.0/addons/res_config_mysql.c:57-407 | the same through both loops |
| `AudioPump.PumpIsSound` | wtkrtc_conf_server/wtkrtc_mixer_api/fakeaudiocapturemodule.cc:178-498 | in every reachable state the thread exists iff audio is played or recorded, a running session has exactly one frame message queued and no frame ran before t0 + 10n, and a thread without a session has a message that begins one |
| `AudioPump.DelayDoesNotAccumulate` | wtkrtc_conf_server/wtkrtc_mixer_api/fakeaudiocapturemodule.cc:475-498 | after each frame the next is due at t0 + 10n or at once, whatever the lateness of the ones before |
| `AudioPump.CallsChange` | wtkrtc_conf_server/wtkrtc_mixer_api/fakeaudiocapturemodule.cc:155-229 | what each call changes: starting needs its initialisation, makes sure of the thread and queues a message; stopping the last of the two ends the thread and the session |
| `AudioPump.DeliveredFromDue` | wtkrtc_conf_server/wtkrtc_mixer_api/fakeaudiocapturemodule.cc:400-498 | a frame message can run from its due time on, and another start message in a session is without effect |
| `AudioPump.StepKeeps` | wtkrtc_conf_server/wtkrtc_mixer_api/fakeaudiocapturemodule.cc:178-498 | every call and every delivery keeps the invariant |
| `AudioPump.CaptureModule.StopPlayout` | wtkrtc_conf_server/wtkrtc_mixer_api/fakeaudiocapturemodule.cc:191-200 | the in-place stop has the effect of its step |
| `AudioPump.CaptureModule.OnMessage` | wtkrtc_conf_server/wtkrtc_mixer_api/fakeaudiocapturemodule.cc:400-498 | the in-place delivery has the effect of its step |
| `FrameRate.FrameTimes.UpdateFrameCount` | webrtc_r67_patch/modules/video_capture/video_capture_impl.cc:232-242 | the loop shifts the array by one place, unless the newest time is below a microsecond, and stores the new time |
| `FrameRate.FrameTimes.CalculateFrameRate` | webrtc_r67_patch/modules/video_capture/video_capture_impl.cc:244-265 | with n fresh entries in front, the n-th of them d whole milliseconds old, the result is 1000 n / d rounded to the nearest integer, half up, and n when n or d is 0 |
| `FrameRate.RateOfRecording` | webrtc_r67_patch/modules/video_capture/video_capture_impl.cc:232-265 | the same for any recording of a clock that does not go back, with n the earlier frames within two seconds, from 1 us on, and d the age of the oldest of them |
| `FrameRate.TenPerSecond` | webrtc_r67_patch/modules/video_capture/video_capture_impl.cc:232-265 | frames 100 ms apart give a rate of 10 |
| `FrameRate.NewestInFront` | webrtc_r67_patch/modules/video_capture/video_capture_impl.cc:232-242 | the new time is in front; the others move up by one place unless the first is below a microsecond in either direction |
| `FrameRate.WindowOfTwoSeconds` | webrtc_r67_patch/modules/video_capture/video_capture_impl.cc:248-252 | an entry is fresh iff it is positive and less than 2001 ms old |
| `FrameRate.EarlyExitCountsAll` | webrtc_r67_patch/modules/video_capture/video_capture_impl.cc:244-257 | the count with the early exit is at most the count of all fresh entries, and equal to it iff no fresh entry is behind a stale one |
| `FrameRate.RateCountsRecentFrames` | webrtc_r67_patch/modules/video_capture/video_capture_impl.cc:232-257 | after any frames of a clock that does not go back the early exit loses no fresh entry; the count is that of the earlier frames in the window, as many as the array has room for, from 1 us on, and of all of them iff none is of the first microsecond |
| `FrameRate.FirstMicroIsLost` | webrtc_r67_patch/modules/video_capture/video_capture_impl.cc:232-257 | after frames at 500 and 600 ns none is counted, although one is recent |
| `FrameRate.ClockThatWentBack` | webrtc_r67_patch/modules/video_capture/video_capture_impl.cc:244-257 | frames at 5 s, 1 us and 2 us leave an array in which a fresh entry is missed |

## Left out

- StepKeepsInv: for steps that do not take the list lock with a head that is no longer on the list.
- RunKeepsInv: for runs in which the worker that was read as the head is on the list when the list lock is taken; in the others a starter inspects a freed record (see `StaleHeadReachesFreedWorker`).
- NoCallLost: for the same runs.
- LeavingWorkerServes: for the same runs.
- WokenWorkerServes: for the same runs; it counts the actions of the worker, not the time it waits for a lock, which `NoDeadlock` and `ListLockIsReleased` are about.
- EachCallServedOnce: for runs with timely reads of the list head (see `ScansIdleIffTimely`); a call also counts as placed when a failed read has lost it.
- LookupAfterRun: for runs in which no two live routes share a leg and no TXCNT uses call number 0, as the index needs; without that, `DelRoute` can unlink another route's entry.
- MediaReachesPeer: for the same runs.
- LegReleasesIffSetted: for the same runs; `ReleasedOnlyWhenSetted` is for all runs.
- StreamRoundTrip: for printed messages whose lines contain no CR, whose result codes do not begin like a prompt or a text message, and whose text messages are those whose end the reader sees (see `TextMessageEnds`).
- HandleCiev: the two numbers of the report are given; what the scan of its text leaves unset when it fails or finds one number only is not modelled.
- IndicatorRead: for at most 15 names; more than that leaves the slots (see `NamesFit`). A kind that is named twice has the number of its last name.
- UntilOkConserved: says what is consumed and put out, not that every terminator is recognised; which ones are is `TextMessageEnds`.
- GetBestMatchedCapability: differences are unbounded integers, so the wrap-around of extreme 32-bit sizes is not modelled; for a list with a height that is not positive only the range of the index is stated, because such a height can equal the search's starting value.
- IsAnsweringMachine: the verdict is stated for non-negative waiting times (the thresholds are times); the silence detector is an arbitrary input, and thresholds that wrap 32 bits are not modelled.
- DecodeChunk: for strings that do not end in a caret or in a caret and one digit, where the code would read behind the string; no escaped string does.
- ReadColumn: for columns whose pieces are such strings.
- AdsiProcess: DESCRIPTION, VERSION, SECURITY and FDN have no effect, because nothing that is modelled reads what they set.
- SubsAreWellFormed: reading IF blocks back is claimed below 256 instructions, because the count is a byte.
- RateCountsRecentFrames: a frame of the first microsecond counts only while it is the newest one, as in the code (see `FirstMicroIsLost`).
- CalculateFrameRate: the division and rounding are done on reals; the conversion to 32 bits is not modelled.
- Call thread pool: a critical section in which its thread cannot wait is one action; module reference counts, the logging and the details of creating a thread and a pipe are left out. The interleaved steps change the link fields of a value; the same operations on heap records are in CallThreadList, one critical section at a time, and are shown to represent those steps.
- Relay: only the newest route can be found by its token, as in the code; user names are parsed but used by nothing; elements and packets are assumed to fit their buffers; trace output, management sockets and the epoll loop are left out. The encoding of a video subclass is read as far as the flag bit.
- Message reader: read errors appear at the end of the input only; the six nested comparisons with CR LF OK CR LF are one loop.
- Indicator parsers: the parsers' NUL writes into the line, the overflow of a decimal conversion and the unset value that a text of blanks leaves are left out.
- Handshake: sending, parsing, allocating and starting a channel are arbitrary booleans; the flags for calls, messages and sound are left out; the timers appear as the loss of the connection.
- ADSI compiler: the splitting of a line into tokens, comments and a last line without a newline are left out; what the commands without table entries write comes with the line; the key number behind an invalid SHOWKEYS token is unset; a missing token where the code would read a null value is treated as an error; the sizes of the byte arrays are not modelled; DESCRIPTION, VERSION, SECURITY and FDN have no effect on the tables.
- ADSI download: sending fails nowhere; sending an empty message before a record of more than 253 bytes is covered only by conservation.
- Realtime tables: building and escaping SQL text, the connection and the multi-row query are left out.
- Audio pump: a call of the user is one action; the audio callbacks, buffers and volume are left out.
- `chan_ooh323.c`, `cdr_mysql.c`, `app_mysql.c`, the engine wrappers and the small applications are left out: they are calls into libraries, or would add easy members only.
