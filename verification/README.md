# Verified model of the shadow proxy

The proxy sits between database clients and a primary server, speaks the MySQL and the PostgreSQL
wire protocol, and copies traffic to a shadow server without letting the shadow disturb the primary.
This project models the five parts of it that carry the most state, and proves what they promise for
every input, every fragmentation of the byte streams, every fault and every interleaving.

* **MySQL sessions** (`MySqlPackets`, `MySqlResponse`, `MySqlReader`, `MySqlSession`). The buffered
  packet reader compacts and grows an array in place; it is proved to be the pure framing of the
  incoming stream. The response parser is proved against two things: a phase machine over packets,
  shared by the reading and the forwarding parser, and a grammar of responses written from the
  protocol's own field descriptions. Together they give byte-exact transparency of whole sessions.
* **Shadow workers** (`ShadowLifecycle`, `ShadowWorker`, `ShadowLedger`). Any number of Send and Close
  calls and one worker goroutine, interleaved at their atomic steps. An inductive invariant gives
  safety of every run; no-loss, its exact condition, termination and the query ledger follow from it.
  `ShadowWorker` is the same worker as an object with mutable fields, each of whose methods is a step.
* **PostgreSQL sessions** (`PgMessages`, `PgMirrorPolicy`, `PgPortals`, `PgLostFrames`, `PgProxy`,
  `PgStartup`, `PgConnection`). Framing, startup, authentication, the query loop, the whole connection to the byte, and the policy
  that hides prepared statements whose Parse was filtered, proved to be a simulation between the
  statements of the primary and those of the shadow, with the exact condition under which a mirrored
  Execute runs the same statement on both, also when any of the mirrored frames are lost.
* **SQL operation detection** (`SqlScanner`, `SqlQuoting`, `SqlComments`, `SqlOperations`, `SqlLayout`,
  `SqlDetector`). The quote-aware splitter, the comment strippers and the table match, each a loop proved to compute a
  simple recursive function, with the algebraic laws of those functions.
* **Query log batching** (`QueryLogger`). Conservation over every schedule, with the batch array reused.

Where the code decides by a constant of a protocol or of SQL, the laws are stated over the protocol's
own bytes, bits, letters and words, written out, and not over the predicates that the code uses.

`Network` stands for the operating system: a `Conn` delivers a stream in arbitrary pieces and may
break at any point, a `Sink` may refuse a write after taking any part of it. `dafny verify
dfyconfig.toml` checks everything.

## Where the code does not do what one would expect

Each of these has a lemma with the failing inputs and one with the exact condition.

* An error packet among the rows of a result set does not end the response for the parser, which
  waits for another packet (`ErrorAmongRowsIsMissed`, `ResultSetExactly`).
* A Send that has passed its closed check can enqueue after the worker has gone; nothing is lost
  exactly when the queue is unbuffered or no Send stands there as Close begins (`RaceLoses`,
  `NoLossExactly`).
* The MySQL shadow worker goes on after a failed read, so that the next request is written while a
  response is owed. Nothing is owed at a write exactly when no read has failed before it
  (`WritesWhileOwed`, `OwedExactly`).
* The documented parity of the query counters (docs/usage-patterns.md:210) fails when a command that
  is not a query is dropped, or while queries are outstanding (`ParityFails`, `ParityExactly`).
* docs/POSTGRES.md:107 lists Execute among the frames dropped for a hidden statement. The code
  mirrors every Execute; the model follows the code (`ExecutesAllShipped`, `ExecuteAlone`).
* Reusing a hidden statement name without closing it first leaves the shadow holding a statement
  whose Bind is dropped (`ReparseStaysHidden`, `NeverDroppedExactly`).
* Overflow of the set of hidden names always leaves a live statement that the shadow lacks and whose
  Bind is mirrored (`OverflowDangles`, `DanglesExactly`, `DanglesByHistory`).
* The unnamed statement is not tracked: after an accepted and then a rejected Parse of it, the Bind is
  mirrored and the shadow runs the earlier text (`UnnamedRunsStale`, `RunsSameExactly`).
* A mirrored frame may be lost, which the proxy does not notice. A lost Parse leaves later frames
  without their statement, a lost Close makes the shadow take the next statement of the name for the
  one before (`LostCloseGoesStale`, `DanglesUnderLoss`, `StaleUnderLoss`, `RunsSameUnderLoss`).
* A PostgreSQL message with type byte zero loses that byte when passed on (`ReserializesExactly`,
  `BytesKeptExactly`).
* The end of a leading block comment is searched for from its own first character, so that
  slash-star-slash counts as a complete comment and what follows it is kept (`SlashStarSlash`,
  `LeadingCommentExactly`).

## Model

| member | source | states |
|---|---|---|
| MySqlPackets.CommandStep | mysql_protocol.go:300-315 | appending one more packet to a partial command either completes the command or leaves the command of the remaining stream to be appended |
| MySqlPackets.TakePacketSplits | mysql_protocol.go:243-256 | the first packet and the rest are the stream, and the packet has the length its header says |
| MySqlPackets.TakePacketOf | mysql_protocol.go:236-257 | a well-formed packet is read back from the front of any stream it begins |
| MySqlReader.PacketReader.constructor | mysql_protocol.go:227-232 | a new reader has an empty window, so its logical input is the connection's stream |
| MySqlReader.PacketReader.Compact | mysql_protocol.go:267-273 | moving the unread bytes to the front of the same array keeps them and their order |
| MySqlReader.PacketReader.Grow | mysql_protocol.go:276-280 | the new buffer has twice the wanted size and the same unread bytes; it never exceeds twice the largest packet |
| MySqlReader.PacketReader.Fill | mysql_protocol.go:283-289 | however the bytes are cut up on arrival the logical input stays the same; end of stream is reported only if it is shorter than wanted |
| MySqlReader.PacketReader.EnsureBytes | mysql_protocol.go:260-292 | on success the wanted bytes are in the window; in every case the logical input is unchanged and the buffer bounds hold |
| MySqlReader.PacketReader.PeekLength | mysql_protocol.go:237-243 | gives the payload length of the first packet of the logical input and consumes nothing; end of stream is reported only if the input is shorter than a header |
| MySqlReader.PacketReader.Advance | mysql_protocol.go:251-256 | copies the first bytes of the logical input and takes exactly those off it |
| MySqlReader.PacketReader.ReadPacket | mysql_protocol.go:236-257 | returns the first packet of the logical input and leaves the rest; a failed call leaves the input as it was, so that a retry returns the same packet |
| MySqlReader.PacketReader.ReadMultiPacket | mysql_protocol.go:297-318 | returns the first command, continuation packets included; on an error says exactly which full packets were consumed and lost |
| MySqlReader.PacketReader.ReadSimpleResponse | mysql_protocol.go:529-535 | consumes exactly one packet and returns its length, or consumes nothing |
| MySqlReader.PacketReader.Pull | mysql_protocol.go:335-339 | reading one packet is one move of the phase machine along the input |
| MySqlReader.PacketReader.SkipColumns | mysql_protocol.go:377-383 | consumes one packet for each column left and counts their bytes, stopping at an error with the count so far |
| MySqlReader.PacketReader.SkipRows | mysql_protocol.go:402-422 | consumes rows up to and including the packet that ends them and reports its more-results flag |
| MySqlReader.PacketReader.SkipResultSet | mysql_protocol.go:374-427 | columns, their terminator and rows follow the phase machine, including the columns-then-OK form |
| MySqlReader.PacketReader.SkipPart | mysql_protocol.go:334-428 | one part of a response follows the phase machine, whatever its first byte |
| MySqlReader.PacketReader.ReadFullResponse | mysql_protocol.go:329-430 | consumes the packets the phase machine asks for and returns their byte count; the outcome matches the phase reached, on errors too |
| MySqlReader.PacketReader.Relay | mysql_protocol.go:547-556 | a packet is passed on whole and counted, or not counted, with at most a part of it written |
| MySqlReader.PacketReader.RelayColumns | mysql_protocol.go:589-598 | the forwarding column loop handles, forwards and counts the same packets |
| MySqlReader.PacketReader.RelayRows | mysql_protocol.go:619-642 | the forwarding row loop handles, forwards and counts the same packets and reports the same flag |
| MySqlReader.PacketReader.RelayResultSet | mysql_protocol.go:585-647 | a forwarded result set follows the phase machine |
| MySqlReader.PacketReader.RelayPart | mysql_protocol.go:546-648 | one forwarded part follows the phase machine |
| MySqlReader.PacketReader.ReadAndForwardResponse | mysql_protocol.go:541-650 | the destination receives exactly the packets handled, then at most a part of one whose write failed; the count is that of the packets handled whole |
| MySqlReader.PacketReader.ReadAndForwardSimpleResponse | mysql_protocol.go:516-525 | forwards exactly one packet, or fails with at most a part of it written |
| MySqlReader.ReadLegalResponse | mysql_protocol.go:329-430 | the running reader, on any chunking of a legal response followed by anything: it returns the byte count of that response and leaves exactly what follows |
| MySqlReader.ForwardLegalResponse | mysql_protocol.go:541-650 | the running forwarder on the same: the destination receives exactly the bytes of that response |
| MySqlResponse.ScanRun | mysql_protocol.go:329-430 | the parser never looks past the packets that stop it |
| MySqlResponse.TrailScans | mysql_protocol.go:329-430 | the packets a loop has handled so far are an initial part of the one scan of the whole input |
| MySqlResponse.TrailEnds | mysql_protocol.go:329-430 | a loop that stopped, or that the end of input stopped, has done exactly that scan |
| MySqlResponse.ParsersAgree | mysql_protocol.go:541-650 | the reading and the forwarding parser consume the same packets and bytes of the same input and reach the same phase |
| MySqlResponse.ToLERoundTrip | mysql_protocol.go:493-506 | little-endian numbers of any width are read back |
| MySqlResponse.EncodeIntRoundTrip | mysql_protocol.go:471-510 | every length-encoded integer below 2^64 is read back with its size, whatever follows it |
| MySqlResponse.EncodePacketShape | mysql_protocol.go:243-244 | a packet built from a payload is well formed and holds the payload after its header |
| MySqlResponse.StatusRoundTrip | mysql_protocol.go:440-441 | whatever the other fifteen flags are, the bit looked at is the one that says that more results follow |
| MySqlResponse.OkRoundTrip | mysql_protocol.go:446-468 | in an OK packet with any two length-encoded integers and any flags, the flag found is the one put in |
| MySqlResponse.EofRoundTrip | mysql_protocol.go:434-442 | in an EOF packet with any flags, the flag found is the one put in, and the packet ends the rows |
| MySqlResponse.RunPart | mysql_protocol.go:334-428 | every legal part of a response takes the parser from its start to the next part or to the end, as its flag says |
| MySqlResponse.RunResponse | mysql_protocol.go:333-429 | every legal response ends the parser, with its last packet |
| MySqlResponse.ExactFraming | mysql_protocol.go:329-430 | whatever bytes follow a legal response, exactly that response is consumed |
| MySqlResponse.EmptyPacketRefused | mysql_protocol.go:340-342 | a response that begins with an empty packet is refused after that packet |
| MySqlResponse.ResponsesArePrefixFree | mysql_protocol.go:329-430 | no legal response begins another, so that framing is unambiguous |
| MySqlResponse.PartialResponseIsLive | mysql_protocol.go:329-430 | before its last packet a legal response never stops the parser |
| MySqlResponse.RowTerminator | mysql_protocol.go:411-421 | among rows the parser goes on exactly when the packet is not EOF-shaped |
| MySqlResponse.RowsEndShape | mysql_protocol.go:402-422 | a packet ends the rows exactly if it has marker 0xFE and a payload of fewer than nine bytes |
| MySqlResponse.ResultSetExactly | mysql_protocol.go:401-427 | whatever the rows and the last packet, they are read as rows and their end if and only if no row is EOF-shaped and the last packet is |
| MySqlResponse.ErrorAmongRowsIsMissed | mysql_protocol.go:411-421 | after an error packet among the rows the parser still waits, for every result set and message |
| MySqlSession.TakeCommandSplits | mysql_protocol.go:297-318 | a command and the rest are the client's stream |
| MySqlSession.AwaitFull | proxy.go:661 | the client is sent the primary's bytes, and on success exactly one full response |
| MySqlSession.AwaitReply | proxy.go:640-670 | no reply, one packet or a full response is awaited according to the command; whatever fault occurs, what the client was sent is an initial part of that one reply, and on success all of it |
| MySqlSession.SpillIsPrefix | mysql_protocol.go:541-650 | what a forwarding parser has let out begins the response, also when a write failed in the middle of a packet |
| MySqlSession.PassCommand | proxy.go:554-591 | the command written to the primary is the next command of the client's stream, to the byte; whatever fault occurs, an initial part of that one command |
| MySqlSession.OneTurn | proxy.go:552-677 | one pass of the loop: command, offer to the shadow, reply. A pass that ends the connection has sent the beginning of the one next command; if no write to the primary was refused it is that whole command and, COM_QUIT apart, exactly the filter's offer was made and an initial part of the one reply passed on; otherwise neither offer nor reply; without faults every way of ending |
| MySqlSession.Session.Extend | proxy.go:552-677 | one pass keeps the account of what went where, offers included, and shortens the client's stream; what the last pass left is as for OneTurn |
| MySqlSession.Session.Proxy | proxy.go:545-678 | under any chunking and any faults, completed turns alternate a command with its full reply; the last, unfinished turn holds at most the one next command and part of its reply; the shadow was offered exactly the commands the filter chose of those that the primary took; so both sides have received an unbroken initial part of the other's stream; without faults primary, client and shadow have been sent exactly what the one course of the two streams says |
| MySqlSession.HaltedIsPrefix | proxy.go:545-678 | what an unfinished turn left behind begins what is left of the client's and of the primary's stream |
| MySqlSession.TalkEnds | proxy.go:545-678 | the turns completed and the way the loop ended are the whole course determined by the two streams |
| MySqlSession.TalkFollows | proxy.go:545-678 | after any number of turns what is left is the course of what is left of the streams |
| MySqlSession.AnswerSplits | proxy.go:640-670 | a reply is an initial part of the primary's stream and the rest is untouched |
| MySqlSession.ScanSplits | mysql_protocol.go:541-650 | the packets of a response and what is left are the stream |
| MySqlSession.CommandRoundTrip | mysql_protocol.go:297-318 | a payload of any length, split into packets as the protocol asks, is read as one command |
| MySqlSession.CommandShape | mysql_protocol.go:160-165 | the command byte is the first byte of the payload, whatever its length, or zero if it is empty |
| MySqlSession.AnswerByCommand | mysql_protocol.go:123-156 | for every payload, by its command byte: no reply for 0x18 and 0x19, one packet for 0x02, 0x0E, 0x1A and 0x1F, the end for 0x01, a full response for all others |
| MySqlSession.AllowedIsDue | proxy.go:610-617 | the filter can keep back a command exactly if it is a COM_QUERY with some text, and decides by that text |
| MySqlSession.AnswerIsReply | proxy.go:640-670 | the reply found is the legal reply to that command, whatever follows |
| MySqlSession.Transparency | proxy.go:545-678 | the course of every list of commands with legal replies takes one turn per command, each with its reply, and then goes on with whatever follows |
| MySqlSession.OneExchange | proxy.go:552-677 | one command with its legal reply is one turn, whatever follows |
| MySqlSession.TalkBytes | proxy.go:545-678 | what the loop has written to primary, client and shadow is the concatenation over its turns |
| MySqlSession.DialogueBytes | proxy.go:545-678 | the bytes of the turns of a dialogue are its commands' and its replies' bytes |
| MySqlSession.DialogueAdds | proxy.go:545-678 | a legal dialogue adds exactly its commands' bytes and its replies' bytes to what the course sends |
| MySqlSession.DialogueOffers | proxy.go:634-636 | the offers of a legal dialogue are its commands, in order, but the COM_QUERYs that the filter rejects by their text |
| MySqlSession.ProxyDialogue | proxy.go:545-678 | the running proxy, on any chunking of a legal dialogue and any rest: the primary is sent exactly the commands' bytes and the client exactly the replies' bytes, then what the rest calls for; if there is none, nothing more, and the shadow is offered exactly the commands of the dialogue but the COM_QUERYs that the filter rejects by their text |
| MySqlSession.QuitEndsDialogue | proxy.go:642-648 | such a dialogue closed by COM_QUIT is followed to its end and not beyond |
| ShadowLifecycle.InitialInv | shadow_worker.go:38-50 | a new worker satisfies the invariant |
| ShadowLifecycle.SendKeepsOrder | shadow_worker.go:96-104 | an enqueue or a hand-over to the waiting worker keeps every accepted request in one place and in order |
| ShadowLifecycle.SendKeepsFates | pg_shadow_worker.go:111-130 | each Send call moves from one fate to another; none is counted twice or lost |
| ShadowLifecycle.SendKeeps | shadow_worker.go:88-105 | every step of any Send call keeps the whole invariant |
| ShadowLifecycle.CloseKeeps | shadow_worker.go:108-143 | every step of any number of Close calls keeps the whole invariant |
| ShadowLifecycle.WorkKeepsSignals | shadow_worker.go:146-169 | the worker drains or leaves only when told to and closes doneCh once |
| ShadowLifecycle.PickKeepsOrder | shadow_worker.go:162-166 | requests leave the queue from its head |
| ShadowLifecycle.CheckKeepsOrder | shadow_worker.go:174-178 | a request taken is settled after all taken before it |
| ShadowLifecycle.WorkKeepsOrder | shadow_worker.go:146-251 | every worker step keeps the order of accepted requests |
| ShadowLifecycle.WorkKeepsWire | pg_shadow_worker.go:195-252 | every worker step keeps the connection in request and response lockstep up to the first error |
| ShadowLifecycle.WorkKeepsSent | shadow_worker.go:172-251 | the record of requests sent is the requests of the writes on the connection, in order, and the one just admitted |
| ShadowLifecycle.WorkKeeps | pg_shadow_worker.go:160-262 | every step of the worker goroutine keeps the whole invariant |
| ShadowLifecycle.OthersDoNotSend | shadow_worker.go:108-169 | the worker and the closers leave the sending side and the accepted requests alone |
| ShadowLifecycle.InvAlways | shadow_worker.go:88-297 | the invariant holds after every interleaving of any length |
| ShadowLifecycle.LineReads | pg_shadow_worker.go:195-252 | what the state of the connection says about the responses still owed in its history |
| ShadowLifecycle.Lockstep | pg_shadow_worker.go:195-262 | in every run a request is written only when no response is owed and read only when one is, up to the first error; after an error the PostgreSQL worker neither writes nor reads |
| ShadowLifecycle.DuesAlways | shadow_worker.go:198-251 | in every run, errors included, one response is owed for each failed read and one more while the worker reads |
| ShadowLifecycle.OwedExactly | shadow_worker.go:198-251 | at every write of every run as many responses are owed as reads have failed, so that none is owed if and only if no read has failed; at every read one more |
| ShadowLifecycle.WritesWhileOwed | shadow_worker.go:233-244 | wherever the MySQL worker awaits a response with another request queued, a failed read is followed by the write of that request while a response is owed |
| ShadowLifecycle.WritesWhileOwedReached | shadow_worker.go:172-251 | such a run exists from the start, for every queue size above zero and any two requests of which the first is answered |
| ShadowLifecycle.SafeAlways | shadow_worker.go:88-297 | in every run each channel is closed at most once, a closed connection is not used, the requests written to the connection are an initial part of those accepted, the queue stays within bounds and each Send has one fate |
| ShadowLifecycle.SealedStays | shadow_worker.go:108-143 | once Close has latched with no Send under way nothing more is accepted |
| ShadowLifecycle.AllSettled | shadow_worker.go:276-297 | when such a Close, or any on an unbuffered queue, returns without a forced stop everything accepted has been written or passed over |
| ShadowLifecycle.NoLoss | shadow_worker.go:108-143 | Send and Close on one goroutine and no timeout: Close returns with the queue empty and every accepted request written to the connection, in order, or passed over on a dead PostgreSQL connection |
| ShadowLifecycle.AllDelivered | shadow_worker.go:198-210 | on a connection without I/O errors all those writes succeeded |
| ShadowLifecycle.DrainProgress | shadow_worker.go:276-297 | a draining worker can always move until it has gone |
| ShadowLifecycle.DrainAlone | shadow_worker.go:276-297 | left alone it empties the queue and goes |
| ShadowLifecycle.RaceLoses | shadow_worker.go:89-99 | a Send past its check when Close latches: there is a run in which it is accepted after the worker has gone |
| ShadowLifecycle.NoLossExactly | shadow_worker.go:88-143 | a Close loses nothing in any run without timeout if and only if the queue is unbuffered or no Send stands past its check when it latches |
| ShadowLifecycle.MovesBounded | shadow_worker.go:146-169 | the worker's moves are bounded by its queue and position and by later enqueues and hand-overs |
| ShadowLifecycle.ForcedCloseStops | shadow_worker.go:172-178 | after a forced close at most one more request is written, the one already admitted |
| ShadowWorker.ReachableStep | shadow_worker.go:88-297 | every stretch of code leads from a state some run reaches to another |
| ShadowWorker.ReachableInv | shadow_worker.go:88-297 | objects are always in a state that satisfies the invariant |
| ShadowWorker.ChannelsOpen | shadow_worker.go:122-133 | the channel a stretch is about to close is still open, and the connection the worker is about to use too |
| ShadowWorker.OpenMeansRunning | shadow_worker.go:88-143 | until the first Close nothing is signalled, the worker is in its main loop and a MySQL connection is open |
| ShadowWorker.HandOverFinds | shadow_worker.go:96-104 | a hand-over on an unbuffered queue finds the queue empty and a worker that nothing has told to stop |
| ShadowWorker.DeadIsClosed | pg_shadow_worker.go:255-262 | a dead PostgreSQL connection has been closed; a MySQL worker is never dead |
| ShadowWorker.Worker.constructor | pg_shadow_worker.go:42-51 | a new object is in the initial state of the machine |
| ShadowWorker.Worker.SendStart | pg_shadow_worker.go:112-115 | a dead worker refuses at once, and only then; its connection is closed |
| ShadowWorker.Worker.SendCheck | shadow_worker.go:89-94 | a request that passes the closed check found a worker that had not been told to stop |
| ShadowWorker.Worker.SendPush | shadow_worker.go:96-104 | enqueues if and only if there is room |
| ShadowWorker.Worker.SendHandOver | shadow_worker.go:96-104 | on an unbuffered queue the waiting worker holds the request at once |
| ShadowWorker.Worker.CloseLatch | shadow_worker.go:109-115 | exactly the first Close goes on |
| ShadowWorker.Worker.CloseSignal | shadow_worker.go:123 | drainCh goes from open to closed |
| ShadowWorker.Worker.CloseWait | shadow_worker.go:126-133 | closeCh is closed exactly on a timeout, and was open |
| ShadowWorker.Worker.CloseConn | shadow_worker.go:137-142 | the connection is closed only after the worker has gone |
| ShadowWorker.Worker.Take | shadow_worker.go:287-291 | takes the head of the queue |
| ShadowWorker.Worker.Admit | pg_shadow_worker.go:196-205 | a request goes on exactly when no forced close and no dead connection stands against it |
| ShadowWorker.Worker.WriteRequest | pg_shadow_worker.go:211-224 | the write happens on an open connection; a response is then awaited exactly if one is due |
| ShadowWorker.Worker.ReadResponse | pg_shadow_worker.go:230-245 | one message read from an open connection, or the latch |
| ShadowWorker.Worker.MarkDead | pg_shadow_worker.go:255-262 | latches and closes once; the MySQL worker goes on |
| ShadowWorker.Worker.Announce | shadow_worker.go:148 | doneCh goes from open to closed |
| ShadowWorker.Worker.AwaitResponse | pg_shadow_worker.go:227-245 | a response of any length is read message by message to its last one, or to a failed read in place of that; a PostgreSQL connection is dead afterwards exactly if it was or the read failed |
| ShadowWorker.Worker.Converse | pg_shadow_worker.go:195-252 | what crosses the connection is the write and, if it succeeded and a response is due, the whole response or what came of it |
| ShadowWorker.Worker.ProcessRequest | shadow_worker.go:172-251 | for responses of any length and any I/O fault: exactly if admitted, the request is recorded as sent and it and its response cross the connection; otherwise nothing does; and the worker is back in its loop |
| ShadowWorker.Worker.DrainNext | shadow_worker.go:287-291 | one pass of the drain loop takes the head of the queue and does the same with it |
| ShadowWorker.Worker.DrainPending | shadow_worker.go:276-297 | the drain loop empties the queue: requests and their responses cross the connection in order, all of them or, for PostgreSQL, up to the first fault; if nothing fails the requests delivered are the queue; under a forced close nothing crosses |
| ShadowWorker.Worker.DrainQueue | shadow_worker.go:276-297 | the passes of that loop, with what was sent and what crossed the connection |
| ShadowWorker.AllReached | shadow_worker.go:276-297 | a MySQL worker gets to send the whole queue whatever fails, a PostgreSQL worker if its connection is alive and nothing fails |
| ShadowWorker.AllAnswered | pg_shadow_worker.go:195-252 | if nothing fails every request is delivered in order and every response that it is owed is read |
| ShadowLedger.ShadowEntryKeeps | shadow_worker.go:172-196 | steps of the worker and of closers keep the books balanced |
| ShadowLedger.ProxyEntryKeeps | proxy.go:569-621 | receiving, failing, filtering and hanging up keep the books balanced |
| ShadowLedger.OfferKeeps | proxy.go:634-636 | the start of an offer to the shadow keeps the books balanced |
| ShadowLedger.CheckEntryKeeps | shadow_worker.go:89-94 | the closed check of that offer keeps the books balanced |
| ShadowLedger.PushEntryKeeps | shadow_worker.go:96-104 | its enqueue or its drop keeps the books balanced |
| ShadowLedger.HandOverEntryKeeps | shadow_worker.go:96-104 | its hand-over on an unbuffered queue keeps the books balanced |
| ShadowLedger.BooksOkAlways | proxy.go:545-678 | the books balance after every interleaving of proxy, worker and closers |
| ShadowLedger.AcceptedSplits | shadow_worker.go:172-196 | accepted queries are those counted on the shadow plus those outstanding |
| ShadowLedger.Ledger | proxy.go:569-637 | at every moment primary queries = shadow queries + filtered + dropped + outstanding + at most one in hand or lost to a failed primary write |
| ShadowLedger.ParityExactly | docs/usage-patterns.md:210 | the documented equation holds exactly when the outstanding queries are as many as the dropped commands that are not queries; at rest, exactly when only queries were dropped |
| ShadowLedger.ParityFails | docs/usage-patterns.md:210 | for every queue size there is a session, at rest with nothing outstanding, in which one command that is not a query was dropped and the equation is false |
| PgMessages.ReadFull | pg_protocol.go:84-102 | a full read of n bytes takes exactly those; an error says what is gone |
| PgMessages.ReadMessage | pg_protocol.go:84-102 | returns the first message of the stream and leaves the rest; a bad length or a short stream is reported as such |
| PgMessages.ReadStartupMessage | pg_protocol.go:63-80 | returns the first untyped message of the stream and leaves the rest; a bad length or a short stream is reported as such |
| PgMessages.MessageRoundTrip | pg_protocol.go:36-44 | every typed message of legal length is read back, whatever follows it |
| PgMessages.StartupRoundTrip | pg_protocol.go:63-80 | every startup message of legal length is read back, whatever follows it |
| PgMessages.LengthsExactly | pg_protocol.go:63-102 | a length field is refused exactly if below four (eight in the startup phase) or above 268435456 |
| PgMessages.ReserializesExactly | pg_protocol.go:36-44 | passing a message on gives the bytes read if and only if its type byte is not zero |
| PgMessages.IndexNullFinds | pg_protocol.go:280-287 | the index is that of the first zero byte, or there is none |
| PgMessages.FindNull | pg_protocol.go:280-287 | the loop finds that index |
| PgMessages.FindQueryText | pg_protocol.go:145-167 | the extractor with its scans gives the text that the specification does, malformed messages included |
| PgMessages.FindParseName | pg_protocol.go:172-182 | so for the name in a Parse |
| PgMessages.FindBindName | pg_protocol.go:186-201 | so for the statement name in a Bind |
| PgMessages.FindTarget | pg_protocol.go:205-232 | so for kind and name in a Close or Describe |
| PgMessages.QueryFields | pg_protocol.go:145-167 | the text put into a Query is taken out of it |
| PgMessages.ParseFields | pg_protocol.go:145-182 | name and text put into a Parse are taken out of it |
| PgMessages.BindFields | pg_protocol.go:186-201 | the statement name put into a Bind is taken out of it, and the portal name too |
| PgMessages.TargetFields | pg_protocol.go:205-232 | target and name put into a Close or Describe are taken out of it |
| PgMessages.DescribeFields | pg_protocol.go:220-232 | so for a Describe of a statement or of a portal |
| PgMessages.CloseFields | pg_protocol.go:205-217 | so for a Close of a statement or of a portal |
| PgMessages.FieldsRoundTrip | pg_protocol.go:145-232 | every zero-free name and text put into a message is the one the mirroring policy sees |
| PgMessages.BrokenOff | pg_protocol.go:145-232 | in messages that break off, a text without its final zero is taken as it is and a name without one for none |
| PgMirrorPolicy.MirrorPolicy.Hide | pg_proxy.go:429-433 | the name is in the set afterwards, alone exactly if the set was full |
| PgMirrorPolicy.MirrorPolicy.MirrorParse | pg_proxy.go:425-436 | a Parse that the filter rejects is dropped and its name, if it has one, hidden; verdict and new set are the policy's |
| PgMirrorPolicy.MirrorPolicy.MirrorClose | pg_proxy.go:454-461 | a Close of a tracked statement is dropped and the name forgotten; verdict and new set are the policy's |
| PgMirrorPolicy.MirrorPolicy.ShouldMirror | pg_proxy.go:420-466 | verdict, reason and new set are those of the pure policy on the frame's fields |
| PgMirrorPolicy.MirrorPolicy.ForgetClosed | pg_proxy.go:366-370 | the second deletion after a mirrored Close never changes the set |
| PgMirrorPolicy.StickyHistory | pg_proxy.go:420-466 | at any point of any trace a name is in the set if and only if some filtered Parse of it has had neither a Close of it nor an overflow since |
| PgMirrorPolicy.StickyBounded | pg_proxy.go:294 | the set never exceeds its cap, and overflows only after that many filtered Parses each |
| PgMirrorPolicy.ClearsExactly | pg_proxy.go:429-433 | the set is cleared exactly when a filtered Parse finds 4096 names in it |
| PgMirrorPolicy.StepSimulates | pg_proxy.go:420-466 | one frame keeps the relation between primary statements, shadow statements and hidden names |
| PgMirrorPolicy.Simulation | pg_proxy.go:354-372 | along every legal trace, overflows included, the shadow holds exactly the primary's named statements minus the hidden ones |
| PgMirrorPolicy.PlayTracksPolicy | pg_proxy.go:420-466 | the simulated set is the policy's own |
| PgMirrorPolicy.MirroringIsConsistent | pg_proxy.go:438-461 | no frame about a statement the shadow has is dropped, and until the first overflow a frame about a live statement is mirrored exactly when the shadow has it |
| PgMirrorPolicy.VerdictTable | pg_proxy.go:420-466 | the verdict on every kind of frame: Query and Parse by the filter if they have a text, Bind and Describe and Close of a statement by the tracked names, all else mirrored |
| PgMirrorPolicy.FrameKinds | pg_proxy.go:420-466 | which frames refer to a statement, hide one and close one |
| PgMirrorPolicy.MirroredExactly | pg_proxy.go:438-461 | at every point of every legal trace Bind, Describe and Close of a statement that the shadow has are mirrored, and until the first overflow those of a live statement exactly if it has it |
| PgMirrorPolicy.DanglesExactly | pg_proxy.go:285-294 | past an overflow a mirrored frame dangles if and only if its statement is hidden and forgotten |
| PgMirrorPolicy.HiddenHistory | pg_proxy.go:425-436 | a name is hidden if and only if some filtered Parse of it in the trace has had no Close of that statement since |
| PgMirrorPolicy.DanglesByHistory | pg_proxy.go:285-294 | read off the trace alone: a frame about a live statement dangles if and only if some filtered Parse of it has had no Close since and every such one has had an overflow since |
| PgMirrorPolicy.OverflowDangles | pg_proxy.go:429-433 | every overflow of a legal trace leaves some live statement hidden and forgotten, whose Bind is then mirrored to a shadow without it |
| PgMirrorPolicy.ClashExactly | pg_proxy.go:425-436 | one frame keeps tracked names and shadow statements apart if and only if it does not reuse a name the other side holds |
| PgMirrorPolicy.ApartExactly | pg_proxy.go:420-466 | along any trace, legal or not, tracked names and shadow statements are apart at every point if and only if no frame clashes |
| PgMirrorPolicy.NeverDroppedExactly | pg_proxy.go:438-444 | on any trace no Bind about a statement the shadow holds is ever dropped if and only if no frame clashes |
| PgMirrorPolicy.NoClashNoDrop | pg_proxy.go:438-461 | and then no Describe or Close about one either |
| PgMirrorPolicy.ReparseStaysHidden | pg_proxy.go:425-448 | anywhere in any trace, an allowed Parse of a name just hidden reaches the shadow while its Bind is dropped |
| PgMirrorPolicy.ExecutesAllShipped | pg_proxy.go:463-465 | on every trace each Execute is mirrored |
| PgMirrorPolicy.ExecuteAlone | pg_proxy.go:463-465 | of a filtered Parse, its Bind and its Execute the shadow is sent the Execute alone |
| PgPortals.TextKept | pg_proxy.go:425-436 | every frame keeps this: a live statement is hidden exactly when the filter rejects its text |
| PgPortals.FrameKept | pg_proxy.go:420-466 | every frame keeps this, portals and unnamed statement included: the shadow holds only texts the filter passes, and of those all that the primary holds |
| PgPortals.AlwaysAgrees | pg_proxy.go:354-372 | both hold at every point of every legal trace, overflows included |
| PgPortals.RunsSameExactly | pg_proxy.go:463-465 | every Execute is mirrored, and at every point of every legal trace it runs the same statement on both sides if and only if the filter passes the text its portal is bound to |
| PgPortals.BoundByLast | pg_proxy.go:438-444 | what a portal holds is what its last Bind found |
| PgPortals.RunsSameIffBindMirrored | pg_proxy.go:438-444 | until the first overflow, for a portal bound to a named statement: a mirrored Execute runs the same statement if and only if the last Bind of its portal was mirrored |
| PgPortals.UnnamedRunsStale | pg_proxy.go:425-444 | anywhere in any trace, an accepted then a rejected Parse of the unnamed statement and a Bind of it: the Bind is mirrored and the two portals hold different texts |
| PgLostFrames.HoldsExactly | pg_proxy.go:361-365 | whatever part of whatever trace a server hears, it has a statement of a name if and only if it heard some Parse of it and nothing since that ends it |
| PgLostFrames.LiveExactly | pg_proxy.go:361-365 | whatever is lost, of a live statement of the primary the shadow has that very one, none, or an earlier one of the name, each with its exact condition |
| PgLostFrames.LosslessAgrees | pg_proxy.go:354-372 | if nothing is lost these servers are those of the simulation and of the account of portals |
| PgLostFrames.DanglesUnderLoss | pg_proxy.go:361-365 | whatever is lost, overflows included: a frame about a live statement dangles on the shadow if and only if the name is not tracked, its Parse was filtered or lost, and each earlier Parse of the name that arrived was followed before it by a Close that arrived |
| PgLostFrames.StaleUnderLoss | pg_proxy.go:361-365 | the shadow takes it for an earlier statement if and only if some earlier Parse of the name that arrived was not so followed |
| PgLostFrames.DanglesByLossAlone | pg_proxy.go:361-365 | until the first overflow a frame dangles if and only if its Parse passed the filter and was lost and no earlier statement of the name lingers |
| PgLostFrames.LostCloseGoesStale | pg_proxy.go:361-371 | anywhere in any trace, if the shadow has no statement of the name: Parse, lost Close, Parse of it leave the shadow with the first statement and the primary with the second |
| PgLostFrames.RunsSameUnderLoss | pg_proxy.go:361-365 | whatever is lost, a mirrored Execute runs the same statement if and only if the last Bind arrived and found the same Parse, or did not take effect and the portal ran that Parse before |
| PgProxy.ChainScans | pg_proxy.go:471-492 | the messages forwarded so far are an initial part of the one reply in the stream |
| PgProxy.ChainEnds | pg_proxy.go:471-492 | a reply loop that ended has forwarded that reply, or all of it there is |
| PgProxy.ForwardMessage | pg_proxy.go:474-481 | one backend message is forwarded whole, or the loop ends with at most a part of it written |
| PgProxy.ForwardUntilReady | pg_proxy.go:471-492 | the client receives exactly the messages up to ReadyForQuery or the start of a COPY, and the count is that of the bytes written |
| PgProxy.QueryLoop.Mirror | pg_proxy.go:354-372 | the frame is offered to the shadow exactly when the policy mirrors it and it is not Terminate; the policy advances |
| PgProxy.QueryLoop.PassMessage | pg_proxy.go:314-353 | the client's next message is written to the primary, or a failed write let out an initial part of it |
| PgProxy.QueryLoop.Accept | pg_proxy.go:314-373 | the next client message reaches the primary to the byte and is then offered to the shadow as the policy says; if the primary was not reached nothing is offered |
| PgProxy.QueryLoop.PassReply | pg_proxy.go:380-404 | Query and Sync are answered through ReadyForQuery, other messages are not waited for; whatever fault occurs, the client was sent messages of the primary's stream in order and at most the beginning of one more |
| PgProxy.QueryLoop.Extend | pg_proxy.go:313-405 | one pass keeps the account of what went where; a pass that ends the loop has sent the beginning of the one next message; if no write to the primary was refused it is that whole message, exactly the policy's offer was made and part of the reply awaited was passed on; otherwise neither offer nor reply |
| PgProxy.QueryLoop.Run | pg_proxy.go:309-405 | whatever ends the loop both sides have received the other's messages in order, reply by reply; the shadow was offered exactly the mirrored frames of the messages that the primary took; without faults the loop ends only for the reasons listed, and primary, client and shadow have been sent exactly what the one course of the two streams says |
| PgProxy.ReadyMatchesAsked | pg_proxy.go:296-308 | at the top of the loop as many ReadyForQuery have been forwarded as Query and Sync |
| PgProxy.BytesKeptExactly | pg_proxy.go:309-405 | bytes are passed on unchanged in both directions if and only if no message had type byte zero; each such message costs one byte |
| PgProxy.TalkFollows | pg_proxy.go:309-405 | after any number of passes what is left is the course of what is left of the streams |
| PgProxy.RunFollows | pg_proxy.go:309-405 | a loop without faults takes the one course the two streams determine |
| PgProxy.ReplyFramed | pg_proxy.go:471-492 | a well-formed reply is found exactly, whatever follows it, whether it ends in ReadyForQuery or begins a COPY |
| PgProxy.Transparency | pg_proxy.go:309-405 | the course of every legal dialogue, pipelined extended queries included, takes one pass per message, each with its reply, and then goes on with whatever follows |
| PgProxy.TalkBytes | pg_proxy.go:309-405 | what the loop has written to primary and client is the concatenation over its passes |
| PgProxy.TalkOffers | pg_proxy.go:354-372 | the loop's policy and its offers follow from the trace of frames it has passed |
| PgProxy.OffersAreShipped | pg_proxy.go:354-372 | the frames offered in a session are those the policy ships of its trace, so that the laws of traces hold of sessions |
| PgProxy.RunSends | pg_proxy.go:309-405 | a course sends to primary, client and shadow what the talk and its ending say |
| PgProxy.DialogueAdds | pg_proxy.go:309-405 | a legal dialogue adds exactly its messages' bytes and its replies' bytes to what the course sends |
| PgProxy.DialogueMessages | pg_proxy.go:309-405 | the messages of the passes of a legal dialogue are its messages, in order |
| PgProxy.TerminateEnds | pg_proxy.go:374-377 | a legal dialogue closed by Terminate: it goes to the primary, is not offered to the shadow, and ends the loop |
| PgProxy.CopyEnds | pg_proxy.go:380-404 | one that enters a COPY: the reply is passed on up to the message that begins it, and the loop ends |
| PgConnection.RunQueries | pg_proxy.go:140-145 | the loop on the streams that authentication left, its offers those of its talk and its last pass |
| PgConnection.RunSession | pg_proxy.go:135-145 | the query loop begins only after a successful authentication and nothing is offered before it; without faults both together send to primary, client and shadow what the streams determine |
| PgConnection.HandleConnection | pg_proxy.go:126-145 | the session begins only after a startup message; whatever ends the connection, what each side has received and what the shadow was offered is that of its visit, the last message being offered exactly if mirrored and taken by the primary; without faults all three are what the two streams determine |
| PgConnection.ConnectionKept | pg_proxy.go:126-145 | whatever ends a connection and wherever, if no message has type byte zero the client's stream begins with the probes and then all that the primary was sent, and the primary's with all that the client was sent besides one refusal per probe |
| PgConnection.ReadyOnce | pg_proxy.go:296-308 | since authentication the client has been told "ready" once more than it sent Query and Sync |
| PgConnection.LegalAuthentication | pg_proxy.go:238-283 | an authentication that the primary accepts is passed through and ends with its ReadyForQuery |
| PgConnection.RefusedAuthentication | pg_proxy.go:276-278 | one that the primary refuses is passed through up to its ErrorResponse and fails |
| PgConnection.LegalStartup | pg_proxy.go:187-230 | any number of probes and then a startup message or a cancel request are taken for what they are |
| PgConnection.LegalConnection | pg_proxy.go:126-145 | of a legal connection the primary is sent all the client says after its probes, the client one refusal per probe and all the primary says, and the shadow is offered the mirrored messages of the dialogue |
| PgConnection.ServeLegal | pg_proxy.go:96-146 | the same of the running proxy, on any chunking: both sinks hold exactly those bytes and the offers are exactly those |
| PgStartup.ForwardStartup | pg_proxy.go:187-230 | each encryption probe gets one refusal and then one message reaches the primary byte for byte, as a startup or a cancel request; a failed write lets out at most the beginning of that refusal or message; without faults the outcome is the one the client's stream determines |
| PgStartup.StartupStep | pg_proxy.go:188-228 | one startup message is refused if it is a probe and passed on if not, with what a failed write lets out |
| PgStartup.ProbesEnd | pg_proxy.go:187-230 | where the next message is no probe, the course of the client's stream is the refusals so far and that message |
| PgStartup.ProbesFollow | pg_proxy.go:187-230 | the probes refused so far are an initial part of the one course of the client's stream |
| PgStartup.ProbesSplit | pg_proxy.go:194-215 | the client's bytes are the probes and what follows, with one refusal per eight bytes of probes |
| PgStartup.StartupSplits | pg_protocol.go:63-80 | a startup message and the rest are the stream |
| PgStartup.Authentication.PassChallenge | pg_proxy.go:239-246 | the primary's next message reaches the client to the byte, or a failed write let out an initial part of it |
| PgStartup.Authentication.PassAnswer | pg_proxy.go:248-273 | a challenge is answered by the client's next message, to the byte, and nothing else is answered; a failed write has let out at most the beginning of that message |
| PgStartup.Authentication.Round | pg_proxy.go:239-282 | one backend message and, if it is a challenge, one client message are passed on unchanged; a round that fails has let out at most the message and the beginning of its answer, and without faults fails only where a stream holds no message when one is due |
| PgStartup.Authentication.Forward | pg_proxy.go:238-283 | succeeds exactly when the primary became ready; whatever ends it each side has received the other's messages in turn and at most the beginning of one more; without faults bytes, outcome and what is left are those the two streams determine |
| PgStartup.DialogueFollows | pg_proxy.go:238-283 | an exchange under way is an initial part of the one that the two streams determine |
| PgStartup.DialogueEnds | pg_proxy.go:238-283 | one that ended, or cannot go on, is the whole of it |
| PgStartup.AuthInLockstep | pg_proxy.go:248-280 | one client message per challenge, and ReadyForQuery only at the end |
| SqlScanner.TrimTwice | query_filter.go:269-282 | a trimmed statement has no space at its ends and stays as it is |
| SqlScanner.KeptAppend | query_filter.go:269-282 | dropping empty statements works piece by piece |
| SqlScanner.SplitStatements | query_filter.go:228-285 | the scan with its three quote flags and escape flag cuts as the state machine does |
| SqlScanner.PiecesRejoin | query_filter.go:228-285 | the untrimmed pieces joined by semicolons are the query |
| SqlScanner.SplitIsHomomorphism | query_filter.go:228-285 | if the scan of p ends outside quotes and escapes, splitting p;q is splitting p and splitting q |
| SqlScanner.PiecesAreWhole | query_filter.go:228-285 | no piece contains a semicolon outside quotes |
| SqlScanner.StatementsAreStable | query_filter.go:228-285 | every statement found splits into just itself |
| SqlQuoting.CutsBetweenReadings | query_filter.go:228-285 | a text read as plain characters, quoted stretches (each of the three quotes) and escapes, possibly unfinished at its end, is cut exactly at the semicolons between these |
| SqlQuoting.ReadingIsOne | query_filter.go:228-285 | so quoted and escaped semicolons never cut |
| SqlQuoting.SemicolonCuts | query_filter.go:267-275 | and all others do |
| SqlQuoting.EveryTextReads | query_filter.go:228-285 | every text can be read in this way |
| SqlQuoting.TrimExactly | query_filter.go:268-282 | trimming takes exactly tab, line feed, vertical tab, form feed, carriage return and space off both ends |
| SqlComments.FirstComment | query_filter.go:407-415 | the first closed block comment lies within the text and has room for both delimiters |
| SqlComments.FindShifts | query_filter.go:407-415 | the first occurrence of a delimiter from a given place on is found at the same distance whatever stands before that place |
| SqlComments.CommentAfterInert | query_filter.go:405-417 | a replaced comment and what stands before it never form a new comment |
| SqlComments.CommentAfter | query_filter.go:405-417 | text in which no comment starts does not change which comment comes first after it |
| SqlComments.StripAfter | query_filter.go:405-417 | such text is kept, whatever follows it |
| SqlComments.StripComment | query_filter.go:411-415 | a closed comment becomes one space, whatever follows it |
| SqlComments.StripAfterInert | query_filter.go:405-417 | starting over from the left after a removal changes nothing |
| SqlComments.StripAllBlockComments | query_filter.go:405-417 | the restarting loop ends and equals a single pass from the left; no closed comment is left |
| SqlComments.StripIsComplete | query_filter.go:405-417 | stripping is idempotent |
| SqlComments.StripKeepsHead | query_filter.go:405-417 | what stands before the first comment stays |
| SqlComments.StripLeadingComments | query_filter.go:420-445 | the loop removes leading line and block comments as the recursive definition does |
| SqlComments.StripLeadingIsBare | query_filter.go:420-445 | the result is trimmed and begins with no comment |
| SqlComments.LeadingCommentExactly | query_filter.go:435-441 | what is left is what follows the comment that stands there, or nothing if it is not closed, if and only if the text does not begin slash-star-slash with one more character |
| SqlComments.SlashStarSlash | query_filter.go:435-441 | after slash-star-slash everything is kept, commented out or not |
| SqlOperations.NormalizeWhitespacePrefix | query_filter.go:370-400 | the first words, up to a parenthesis, are joined by single spaces and the rest is kept |
| SqlOperations.EntryShape | query_filter.go:308-348 | each table entry has two or three words and is told by its first two |
| SqlOperations.AtMostOneEntry | query_filter.go:308-356 | at most one entry can match, so that the order of the table does not matter |
| SqlOperations.WordsShape | query_filter.go:370-400 | the words found contain no blank and no parenthesis, and what follows fewer than the limit is empty or a parenthesis |
| SqlOperations.MatchIsByWords | query_filter.go:350-356 | the string test with its boundary check holds if and only if the words are the first words |
| SqlOperations.TokenOpExactly | query_filter.go:308-364 | the operation is the name of the matching entry, else the first word |
| SqlOperations.EntryNamed | query_filter.go:308-348 | an operation is called by its words joined by underscores, but for INSERT INTO, TRUNCATE, ANALYZE and five SHOWs, called by their first word, and external tables |
| SqlOperations.PromisedInserts | query_filter.go:308-348 | INSERT OVERWRITE, INSERT INTO, SUBMIT TASK and SET CATALOG, whatever follows |
| SqlOperations.PromisedTables | query_filter.go:308-348 | so for tables |
| SqlOperations.PromisedUpkeep | query_filter.go:308-348 | so for TRUNCATE and ANALYZE |
| SqlOperations.PromisedViews | query_filter.go:308-348 | so for materialized views |
| SqlOperations.PromisedAdmin | query_filter.go:308-348 | so for ADMIN, BROKER LOAD and SHOW TABLES |
| SqlOperations.PromisedShows | query_filter.go:308-348 | so for the other SHOWs |
| SqlOperations.PromisedExternal | query_filter.go:308-348 | so for external tables |
| SqlOperations.FirstWordIsFirst | query_filter.go:358-364 | the fallback returns the first word |
| SqlOperations.EntryTest | query_filter.go:350-356 | on the normalised text each entry's string test is its word test |
| SqlOperations.MatchOperation | query_filter.go:302-364 | the table loop finds the operation that the words determine |
| SqlOperations.ExtractStatementOperation | query_filter.go:291-365 | comments, case and spacing removed, the operation is that of the first words |
| SqlLayout.LeadOfBare | query_filter.go:420-445 | spaces, line comments and block comments (not beginning slash-star-slash) before a statement are passed over, and space at its end |
| SqlLayout.StripLayout | query_filter.go:405-417 | taking the block comments out of a statement leaves its words and makes a blank of each comment between them, whatever follows |
| SqlLayout.WordsOfLayout | query_filter.go:370-400 | the first words are found whatever blanks stand between them |
| SqlLayout.MostMayFollow | query_filter.go:370-400 | what may follow the words: any text that is empty or starts with a parenthesis or, after four words, with a blank |
| SqlLayout.OperationIsByWords | query_filter.go:287-400 | any spacing, any case, any comments before (but slash-star-slash) and between the same first words, themselves free of spaces, parentheses and comment starts, and any text after them give the same operation |
| SqlLayout.UpperSpells | query_filter.go:305 | upper case turns the 26 letters and nothing else |
| SqlLayout.EntryReached | query_filter.go:287-365 | a statement that begins with the words of an entry, in any spelling and layout, has the operation it names |
| SqlLayout.NoEntryReached | query_filter.go:358-364 | one that begins with the words of none has its first word, in upper case |
| SqlLayout.OnlyLead | query_filter.go:292-296 | nothing but spaces and comments, the last of which may be unended, has no operation |
| SqlLayout.ParenthesisFirst | query_filter.go:358-364 | a statement that begins with a parenthesis is its own operation |
| SqlDetector.FindReal | query_filter.go:209-215 | the backward scan finds the last operation that is not session setup |
| SqlDetector.FindAny | query_filter.go:217-223 | the second finds the last operation of any kind |
| SqlDetector.ExtractPrimarySQLOperation | query_filter.go:206-224 | the primary operation is the last real one, else the last, else UNKNOWN |
| SqlDetector.PrimaryExactly | query_filter.go:190-224 | the operation of a query is that of its last statement other than SET, SET CATALOG and USE; if there is none, of the last that has any; else UNKNOWN |
| SqlDetector.LastRealAppend | query_filter.go:206-224 | of two lists of statements the later one decides if it can |
| SqlDetector.PrefixKeepsPrimary | query_filter.go:200-224 | prefixing anything that ends outside quotes never changes the operation of a query that has a real one |
| SqlDetector.LastAnyAppend | query_filter.go:216-223 | of two lists of statements the later one gives the fallback operation if it has any operation |
| SqlDetector.PrimaryOfBoth | query_filter.go:200-224 | the primary operation of two queries joined by a semicolon, in every case: a real operation of the later one, else of the earlier one, else the later one's setup, else the earlier one's |
| QueryLogger.Logger.constructor | query_logger.go:285 | a new logger holds nothing |
| QueryLogger.Logger.Log | query_logger.go:250-261 | an entry is queued if and only if there is room, and is otherwise dropped without effect |
| QueryLogger.Logger.Append | query_logger.go:297 | the batch grows by the entry, in place or in a larger array |
| QueryLogger.Logger.TakeOne | query_logger.go:313-314 | the head of the channel moves to the end of the batch and nothing is lost between |
| QueryLogger.Logger.FlushBatch | query_logger.go:304-307 | a non-empty batch is written in order and the array is free for reuse |
| QueryLogger.Logger.OnEntry | query_logger.go:289-301 | a flush happens exactly when the batch reaches its size, and then holds exactly the batch |
| QueryLogger.Logger.OnTick | query_logger.go:303-307 | the timer writes the batch, if there is one, and empties it |
| QueryLogger.Logger.OnDrain | query_logger.go:309-323 | one drain step takes an entry, or, the channel being empty, writes what is left and stops |
| QueryLogger.Logger.OnCancel | query_logger.go:309-311 | cancellation starts the drain and moves no entry |
| QueryLogger.Logger.Branch | query_logger.go:287-325 | each branch of the select changes channel, batch, mode and storage as the loop on values does |
| QueryLogger.Logger.Do | query_logger.go:279-326 | one move changes channel, batch, mode and storage exactly as the loop on values does |
| QueryLogger.Logger.Run | query_logger.go:279-326 | on every schedule of arrivals and branches the state is that of the loop on values |
| QueryLogger.Logger.DrainAll | query_logger.go:309-323 | after a cancellation, with nothing more arriving, the drain loop ends with the channel empty and everything accepted in storage |
| QueryLogger.StepConserves | query_logger.go:287-325 | every move keeps the accepted entries equal to those written, then the batch, then the channel, in order |
| QueryLogger.StepBounded | query_logger.go:287-325 | between moves the batch of a running loop is below its size, full batches were exactly full, and a stopped loop holds nothing |
| QueryLogger.AlwaysConserved | query_logger.go:279-326 | both hold on every schedule |
| QueryLogger.StoppedHasWritten | query_logger.go:309-323 | once stopped, everything accepted has been written but for what came after the end |
| QueryLogger.DrainFinishes | query_logger.go:309-323 | a cancelled loop stops after one move per entry in the channel and one more, with everything written |
| QueryLogger.TickWrites | query_logger.go:303-307 | after the timer has fired everything accepted is in storage or still in the channel |
| QueryLogger.RunningWrites | query_logger.go:287-307 | a running loop that takes what there is and then the timer has everything written |
| QueryLogger.CancelFinishes | query_logger.go:309-323 | a running loop that is cancelled stops with everything written |

## Left out

- TLS, listeners, dialling, handshakes, authentication with the shadow, health and metrics endpoints: plumbing over libraries that are not part of this model.
- mysql_auth.go: bit edits of the handshake. That CLIENT_DEPRECATE_EOF is not negotiated is a premise of the response grammar; proxy.go:240-244 forwards it unchanged on one branch.
- The response grammar has no file data after a LOCAL INFILE request, no definitions after a COM_STMT_PREPARE reply, no result set with 2^24 columns or more, and no row that looks like an EOF packet.
- Reads that deliver bytes together with an error: `Network.Conn` delivers one or the other.
- The verdict of the query filter: regular expressions, sampling and include or exclude modes are an arbitrary predicate on the SQL text (for MySQL an arbitrary choice per command).
- The text of a multi-packet COM_QUERY contains the inner packet headers in the source; the filter being arbitrary, nothing depends on it.
- Clocks, durations, histograms, the worker registry and all counters other than those of the query ledger.
- The query counters of the PostgreSQL path, where the two sides count different frame types.
- copyFallback and proxyWithoutShadow: plain copying in both directions.
- Unicode: case folding and white space are those of ASCII.
- ShadowWorker.Worker.ProcessRequest: stated for a worker that nothing interferes with; interleavings are covered step by step in `ShadowLifecycle`.
- ShadowWorker.Worker.DrainPending: as for ProcessRequest.
- ShadowWorker.Worker.DrainNext: as for ProcessRequest.
- ShadowWorker.Worker.DrainQueue: as for ProcessRequest.
- ShadowWorker.Worker.Converse: as for ProcessRequest.
- ShadowWorker.Worker.AwaitResponse: as for ProcessRequest.
- The shadow worker's use of its packet reader: a response is a number of messages here; `MySqlReader` proves where it ends.
- Parses and Binds that fail on the server for other reasons than a name in use or missing, the skipping of frames up to the next Sync after a failure, and the end of portals with their transaction.
- PgPortals.RunsSameIffBindMirrored: until the first overflow and for named statements; past it and for the unnamed statement a Bind is mirrored whatever its text, and `RunsSameExactly` gives the condition.
- FunctionCall, which also ends in ReadyForQuery but is not awaited by the loop, is not part of a legal dialogue here.
- PgMirrorPolicy.Simulation: assumes that every mirrored frame reaches the shadow; pg_proxy.go:361 ignores the result of Send, which drops a frame on a full queue or a dead connection. `PgLostFrames` makes no such assumption.
- PgPortals.AlwaysAgrees: assumes the same; `PgLostFrames.RunsSameUnderLoss` does not.
- PgPortals.RunsSameExactly: as for AlwaysAgrees.
- PgConnection.HandleConnection: always has a shadow worker; when none could be started the mirroring step is absent and nothing is offered.
- The branch of forwardStartup that upgrades the client to TLS.
- Splitting is not aware of comments in the source, and so not here: a semicolon or quote inside a comment counts.
- flush in query_logger.go: writing JSON to storage is the act of appending the batch to a ghost log.
