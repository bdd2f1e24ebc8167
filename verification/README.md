# Sockety wire protocol: model and proofs

Sockety multiplexes messages over one connection. A message is a header and, optionally, data of a
declared size and a stream that ends with a marker. Concurrent senders share a writer: each reserves a
channel, puts its header on it, then its data and stream packets, and gives the channel back; a
channel-switch packet is written only when the tracked current channel differs. The receiver's parser
reads the bytes in whatever pieces they arrive and rebuilds the messages.

This project models both sides and the bytes between them, and proves that the parser undoes every
interleaving of the writers.

| file | models |
|---|---|
| `Bytes.dfy`, `Bits.dfy` | little-endian integers, the in-place writers, the bit masks of the fields that the model divides out |
| `Codec.dfy` | packets, the Message header, width selection |
| `Channels.dfy` | channel ownership: the cyclic scan, the writer's shared state |
| `Handshake.dfy` | the protocol header and the negotiation of the number of channels |
| `Demux.dfy` | the specification of the parser: a machine that takes one byte at a time |
| `Runs.dfy`, `RoundTrip.dfy` | what the machine does with whole fields, payloads and packets |
| `ReadingOn.dfy` | a packet that goes on behind its message's header: when delivered fields can still change, and to what |
| `Failures.dfy` | every way in which input stops the parser, and what exactly it takes |
| `Multiplex.dfy` | concurrent senders as a step relation, and the multiplexing round trip |
| `Grammar.dfy` | without a receiver: the order of packets on one channel, and the switches between channels |
| `Writer.dfy`, `StreamWriter.dfy` | channel manager, packet builder, writer and stream writer as classes |
| `Sender.dfy` | sends and requests as coded, over the writer's classes, proved to be runs of the steps |
| `Reader.dfy` | source, buffered reader, packet budget and field readers as classes |
| `Parts.dfy` | message, message data and message stream, shared by parser and user |
| `MessageReader.dfy`, `ParserChannel.dfy`, `Parser.dfy` | the parser as classes, proved to follow the machine |
| `ActionString.dfy` | the action's string, which shares its bytes with the next header's |
| `EndToEnd.dfy` | a whole connection, from protocol header to delivered messages |

How the pieces fit. `Demux.Parse` is the one-shot reading of a byte string. `Multiplex` proves that the
bytes of every run of the senders are read by `Parse` as the messages that were sent. `Parser.Read` keeps
`Valid`, which says that the parser's objects are what `Parse` makes of the bytes taken so far, for every
schedule of source reads and every buffer size. `EndToEnd.Receive` joins the two. The classes of the
writing side are proved against the same functions on `Channels.Shared` that the senders' steps are made of,
and `SenderObjects.Pass` and `SenderObjects.MessageRequest.Send` show that the calls of one send are a run of
those steps, whatever other sends are under way on the writer.

What the parser does with input that no writer of the source sends is modelled as coded. A Message packet
that goes on behind its message's header, while a part of the message is outstanding, is read into the same
message again: its fields are overwritten one by one, its data is replaced while the channel goes on filling
the data it had, and the message is handed over a second time. The machine's log therefore holds the messages
and `handed` the order in which they are handed over. A header reader that is cut off in such a second header
is not reset when the channel is freed, so the next message on the channel starts behind the bytes it holds
(`residue`), and panics if its data size is among them. `ReadingOn` says exactly when this can happen to a
delivered message.

The source's locks become atomic steps: one label of `Multiplex` is one critical section, one change of a
channel lock, or one operation on a stream's mutex. A blocked call is a step that is not enabled, or an
answer that says so (`None`, `Waiting`, `NotReady`).

Where documentation and code differ the code is followed: `NoStream` on a draft asks for a stream
(message_draft.go:44-49), and the released channel of the channel manager is never made
(channel_manager.go:28-36), so waiting for a channel has no end.

Two properties that one would expect are false of the code, and are proved here with their exact conditions.
A delivered message's fields may change (`ReadingOn.ReadingOnOverwrites`), if and only if its packet has at
least 17 bytes left behind its header and a part of it is outstanding (`ReadingOn.PacketStays`). And its action
may change (`ActionStrings.PingPong`) with the next header on its channel, unless that needs a new buffer or
one of the two actions begins with the other (`ActionStrings.ActionStays`).

## Model

| member | source | states |
|---|---|---|
| `Bytes.LittleEndianThenValue` | byte_utils.go:19-35 | every number below 256^width is read back from its little-endian bytes |
| `Bytes.ValueThenLittleEndian` | byte_utils.go:73-117 | the bytes of the number that a field holds are the field: different fields hold different numbers |
| `Bytes.ReadersAgree` | byte_utils.go:19-35 | the readers of 1, 2, 3 and 6 bytes at any offset give the number that the bytes there stand for |
| `Bytes.WriteUint` | byte_utils.go:102-117 | the width's writer puts the number's bytes at the offset, leaves every other byte and returns the next offset |
| `Bytes.WriteBytes` | byte_utils.go:66-71 | the bytes land at the offset and no byte outside the field changes |
| `Bits.HeaderWidths` | message_reader.go:88-194 | the widths of the header's fields are those that the reader's switches on the flag masks select, for all 256 flag bytes |
| `Bits.SizeWidths` | parser.go:132-144 | the width of a packet's size is that of the size mask's case, and the panicking one is the 32-bit case |
| `Bits.SignatureDispatch` | parser.go:171-250 | the machine's dispatch on a signature is the switch on the kind mask, for every signature and state |
| `Bits.MessageBits` | parser.go:199-202 | the two low bits of a Message signature are its flags |
| `Bits.ControlBits` | parser.go:86-111 | a first byte is refused exactly if its constant bits are wrong, whatever follows; otherwise the two low bits say the form of the count |
| `Bits.ChannelNumber` | parser.go:190-195 | joining the two halves of a wide channel number is the sum that the model takes |
| `Bits.FlagBits` | message_draft.go:70-82 | the flags that the writer joins share no bit, so that joining them is adding them |
| `Codec.WidthsAreTight` | protocol_utils.go:64-109 | the fields chosen for an action's size, for a data size and for a packet's size hold it, and no narrower supported one does |
| `Codec.HeaderFitsPacket` | message_draft.go:72-73 | every header that can be built has at least 19 bytes and fits a 24-bit packet |
| `Codec.FlagsForm` | protocol_utils.go:146-192 | the flag byte for every action and data size, bit by bit |
| `Codec.HeaderForm` | message_draft.go:84-96 | the header's bytes: flags, id, action size in one byte or two, action, data size in none, one, two or six |
| `Codec.PacketForm` | packet.go:14-36 | the bytes of every packet: kind, flags and width, the size in as few bytes as it takes, the payload |
| `Codec.SwitchForm` | protocol_utils.go:35-44 | a switch is one byte for the first sixteen channels and two for the others |
| `Channels.ScanIsComplete` | channel_manager.go:60-67 | the scan finds a free channel exactly if there is one, and then the cyclically first one from the current |
| `Channels.PlaceIsUnique` | channel_manager.go:62-63 | the scan visits no channel twice |
| `Channels.ScanGoesRound` | channel_manager.go:62-63 | the scan starts at the current channel, goes on to the next and from the last to the first |
| `Handshake.ProtocolHeaderForm` | protocol_utils.go:10-33 | the protocol header's bytes for every count |
| `Handshake.GreetingSays` | parser.go:78-113 | for every input: only four first bytes are a header's, each error is given exactly for its reason, and no more than 4096 channels are understood |
| `Handshake.GreetingRoundTrip` | protocol_utils.go:12-33 | the protocol header is read back as the count written, except that 256 is read as 0; what follows is left alone |
| `Handshake.NegotiationIsSafe` | conn.go:117-146 | the writer stays within the channels its peer reads if and only if the peer does not read 256, and then uses the smaller of its option and that; for 256 it uses all 4096 |
| `Demux.RunConcat` | parser.go:146-252 | cutting the input anywhere makes no difference to what is read |
| `Demux.StepKeeps` | parser_channel.go:80-153 | every byte keeps: a channel is busy exactly while its message, or the data it had before, has a part outstanding, and no two channels share a message |
| `Demux.RunKeeps` | parser.go:146-252 | the same for every input, valid or not |
| `Demux.LengthStable` | message_reader.go:90-104 | once the action's size is known, later bytes do not move the header's fields |
| `Runs.RunHeader` | message_reader.go:67-202 | a piece of a header in a packet budget: the message is delivered at the header's last byte and not before, also when it starts behind bytes left in the reader |
| `Runs.RunReread` | parser_channel.go:134-167 | a piece of a header behind that of a message with parts outstanding overwrites that message's fields as far as they have come in, and hands it over again at its last byte |
| `Runs.RunData` | parser_channel.go:169-197 | a piece of data within the declared size is appended, and the channel is freed by the piece that completes the message |
| `Runs.RunDataTooLong` | message_data.go:37-45 | data past the declared size always fails, however it is cut; the machine keeps what fits, of which the source has the blocks before the one that overruns (`Parser.Read`) |
| `Runs.RunStream` | parser_channel.go:199-226 | a piece of a stream payload is appended in order |
| `Runs.RunGrows` | parser_channel.go:134-153 | for every state and input: a message that is never read on into only gets more data and stream, and what is handed over is only added to |
| `Runs.RunOnce` | parser.go:151-160 | messages are handed over more often than once only by reading on, and then the count of those handed over stays ahead of the messages |
| `ReadingOn.DeliveredStays` | parser_channel.go:159-167 | no later input whatever changes a delivered message's header if and only if the packet being read has no room for 17 bytes behind that header, or no part of the message is outstanding |
| `ReadingOn.PacketStays` | parser.go:199-214 | the same for every Message packet of a declared size whose payload begins with a whole header: data or a stream and at least 17 more bytes are what it takes |
| `ReadingOn.ReadingOnOverwrites` | parser_channel.go:134-167 | the shortest such input: a message delivered with one id has another one 17 bytes later, without an error |
| `ReadingOn.SecondHeader` | parser_channel.go:134-153 | a whole header behind a message's: the message is handed over again with the new fields and empty data, and its channel waits for the new data, or if there is none for the rest of the old |
| `ReadingOn.BehindResidue` | parser_channel.go:92-153 | a message behind a header that was cut off lacks exactly the fields that had been read, and panics exactly if its data size is among them |
| `Failures.SignatureFails` | parser.go:166-250 | a signature stops the parser exactly if it names a missing channel, ends a stream that is not there or is of one of nine kinds, with that error |
| `Failures.ChannelFails` | parser.go:115-118 | a wide channel number stops it exactly if there is no such channel |
| `Failures.SizeFails` | parser.go:132-144 | a packet's size stops it exactly if it is 32-bit, or its message comes on a taken channel, or its data or stream is not awaited, or its header is over and panics |
| `Failures.PayloadFails` | parser_channel.go:159-226 | a payload's byte stops it exactly if nothing is read on the channel, nothing more of that part is due, or it completes a header that panics |
| `RoundTrip.FlagsRoundTrip` | protocol_utils.go:146-179 | the reader selects from the flag byte exactly the widths the writer chose |
| `RoundTrip.HeaderRoundTrip` | message_draft.go:54-96 | the header for any id, any action and any data size up to 48 bits decodes to them, at exactly its own length |
| `RoundTrip.HeaderAlone` | stream_reader.go:73-96 | a header that fills its packet is delivered if and only if something follows the action's size; an empty action alone leaves the channel waiting |
| `RoundTrip.AnyHeaderRoundTrip` | message_reader.go:67-202 | for every flag byte and all fields that fit it, file fields too: each field is found again in its place |
| `RoundTrip.AnyHeaderIsItsFields` | message_reader.go:67-202 | the bytes of any whole header are those of the fields found in it |
| `RoundTrip.WideSizePanics` | stream_reader.go:144-156 | reading a packet's size panics if and only if the size field is the 32-bit one |
| `RoundTrip.RunPrefix` | packet.go:14-36 | signature and size of every packet are read back, flags included, if the size has up to 24 bits; with 32 bits the reader panics |
| `RoundTrip.RunSwitch` | protocol_utils.go:35-44 | the switch packet of every channel moves the reader to that channel and changes nothing else |
| `RoundTrip.RunPacket` | parser.go:199-241 | a packet that may come now is read as a whole, has the effect its contents say, and leaves the reader between packets |
| `RoundTrip.EmitArrives` | writer.go:71-86 | a packet put on a channel arrives on that channel, whether or not a switch packet was written |
| `Multiplex.StartIsSane` | writer.go:35-46 | every set of valid drafts on a new writer is a state that runs may start from |
| `Multiplex.StepInStep` | message_draft.go:98-162 | every step of every sender keeps: a receiver of the wire holds exactly what has been sent, at the writer's current channel |
| `Multiplex.AlwaysInStep` | writer.go:71-86 | the same at every point of every run |
| `Multiplex.ReceiverNeverFails` | writer.go:71-86 | the receiver's channel is the writer's current one, and no prefix of the wire makes the receiver fail |
| `Multiplex.FreeChannelsAreIdle` | channel_manager.go:79-103 | whenever a channel's lock is free the receiver has that channel idle, header-only messages included |
| `Multiplex.ReleasedIsIdle` | message_draft.go:160-162 | by the time a sender releases its channel the receiver is done with the channel |
| `Multiplex.ChannelsAreExclusive` | channel_manager.go:38-40 | two senders never hold the same channel, and what is held is locked and below the channel count |
| `Multiplex.FreeChannelExists` | channel_manager.go:60-76 | a locked channel always has a holder, so with no more sends than channels one that has not begun finds a free channel |
| `Multiplex.SentSoFar` | message_stream_writer.go:34-67 | at any point of any run the receiver has of a send its header, its data or none yet, and the first of the bytes that its stream's users have asked for, all of them once the stream has ended |
| `Multiplex.FinishedIsAccounted` | message_stream_writer.go:34-67 | a finished send's stream is what its users wrote before the first close, in the order they got the mutex |
| `Multiplex.MultiplexRoundTrip` | message_draft.go:53-165 | for all sends and all interleavings: once all are done the receiver has exactly the sent messages, each handed over once, in header order, with all data and stream bytes, all channels idle, all locks free, no error |
| `Grammar.PutsAreWritten` | writer.go:71-86 | the packets a step is said to put are the bytes it writes |
| `Grammar.PacketsFollowGrammar` | message_draft.go:98-162 | on each channel: messages one after another, each followed by one data packet of the declared size and stream packets up to one end marker, in any mix; a free channel is between messages |
| `Grammar.WireIsUnits` | writer.go:71-86 | along every run the wire is the packets put, with switches between them, and nothing else |
| `Grammar.SwitchesAreNeeded` | writer.go:71-86 | every packet finds its own channel in force, no switch is to the channel in force, doubled or last, and there are as many as changes of channel |
| `WriterObjects.ChannelManager.Reserve` | channel_manager.go:60-76 | takes the first free channel of the scan and nothing else, or takes none if there is none |
| `WriterObjects.ChannelManager.GetFree` | channel_manager.go:79-95 | finds the first free channel of the scan without taking it |
| `WriterObjects.ChannelManager.ObtainLock` | channel_manager.go:38-40 | succeeds exactly if the channel was free, and leaves it held either way |
| `WriterObjects.ChannelManager.Release` | channel_manager.go:97-103 | frees that channel and no other |
| `WriterObjects.PacketBuffer.constructor` | packet.go:14-36 | a new packet of any size up to 32 bits holds signature and size and has room for exactly the declared payload |
| `WriterObjects.FillHeader` | message_draft.go:84-96 | the fields fill the packet exactly, in the header's order |
| `WriterObjects.BuildMessagePacket` | message_draft.go:54-96 | the packet is exactly filled and is the encoding of the draft |
| `WriterObjects.Writer.UnsafeWriteAtChannel` | writer.go:71-86 | the target gets the packet alone if the channel is current, and otherwise the switch and the packet; the channel is current then |
| `WriterObjects.Writer.ObtainChannel` | writer.go:48-53 | reserves a free channel and writes nothing |
| `WriterObjects.Writer.ReleaseChannel` | writer.go:55-57 | gives the channel back and writes nothing |
| `WriterObjects.Writer.Write` | writer.go:99-105 | puts the packet on a free channel without taking it |
| `WriterObjects.Writer.WriteRawAtChannel` | writer.go:129-134 | puts the bytes on the channel in one step |
| `WriterObjects.Writer.WriteAndObtainChannel` | writer.go:108-120 | reserves a channel and puts the packet on it |
| `WriterObjects.Writer.WriteAndReleaseChannel` | writer.go:137-144 | puts the packet on the channel and gives the channel back |
| `WriterObjects.Writer.WriteExternalWithSignatureAtChannel` | writer.go:146-187 | header and payload written apart add up to one Data or Stream packet on the channel, for any payload up to 32 bits |
| `StreamWriterObjects.DoneSignal.Close` | internal/done_signal/done_signal.go:28-34 | the signal is closed once, however often it is set |
| `StreamWriterObjects.MessageStreamWriter.constructor` | message_stream_writer.go:19-28 | a stream starts locked and open |
| `StreamWriterObjects.MessageStreamWriter.StartAccepting` | message_draft.go:144-144 | the sender's unlock lets the stream's users in |
| `StreamWriterObjects.FifoMutex.Lock` | internal/fifo_mutex/fifo_mutex.go:13-15 | gets the mutex exactly if there is room, and otherwise changes nothing |
| `StreamWriterObjects.MessageStreamWriter.Write` | message_stream_writer.go:34-50 | one Stream packet with the bytes if the stream is open, nothing and an error if it is closed, nothing yet while the mutex is taken |
| `StreamWriterObjects.MessageStreamWriter.Close` | message_stream_writer.go:52-67 | the end marker goes out once; closing again writes nothing; nothing happens yet while the mutex is taken |
| `SenderObjects.Pass` | message_draft.go:53-169 | in any net of sends that shows the writer's state: a send without a stream writer does, call by call, the steps of its own sender and of no other, in either order of its data and its end marker; exactly if a channel is free it finishes, with all its data out; a header-only one takes no channel |
| `SenderObjects.UsersAct` | message_stream_writer.go:34-67 | what a stream's users write before the first close goes out, in order and no more, and the stream is closed exactly if one of them closes it |
| `SenderObjects.MessageRequest.Send` | message_draft.go:209-229 | a request is sent once and any later call only fails; the first call is a run of its sender's steps that puts its data and what its stream's users write before the first close on the wire, and sets its signals exactly when it is sent |
| `SenderObjects.SentArrives` | message_draft.go:53-165 | whatever was sent before or is under way, a receiver has a sent message whole, with exactly those bytes as its stream, in the place its header took |
| `SenderObjects.PassAll` | message_draft.go:167-169 | any messages passed one after the other over a new writer are all sent, and a receiver of what was written has them whole and in that order |
| `ReaderObjects.Source.Read` | buffered_reader.go:35-42 | a source that yields any positive number of the bytes due, in order, or the end of the input |
| `ReaderObjects.BufferedReader.LoadBytes` | buffered_reader.go:35-42 | loading moves bytes from source to window and loses none |
| `ReaderObjects.BufferedReader.Ensure` | buffered_reader.go:53-67 | makes the bytes available or reports the end exactly if too few are left; for one byte it never rotates the buffer |
| `ReaderObjects.BufferedReader.ReadByte` | buffered_reader.go:88-96 | delivers the next unread byte, or the end exactly if there is none |
| `ReaderObjects.BufferedReader.Read` | buffered_reader.go:98-124 | fills the target with the next unread bytes, or with all of them and an error exactly if there are too few |
| `ReaderObjects.LimitedReader.Read` | buffered_reader.go:166-172 | takes exactly the target's length from the packet's budget, or nothing if the budget does not cover it |
| `ReaderObjects.LimitedReader.ReadByte` | buffered_reader.go:158-164 | takes one byte from input and budget, or fails exactly if one of them is used up |
| `ReaderObjects.LimitedReader.Preload` | buffered_reader.go:174-179 | reports the end exactly if budget or input is used up, and otherwise has a byte in the window |
| `ReaderObjects.StreamReader.Get` | stream_reader.go:73-96 | collects a field over any number of calls: ready exactly when it is whole, with its bytes in order; not ready only if the budget does not cover it, and then with all that window and budget have |
| `ReaderObjects.StreamReader.Resize` | stream_reader.go:65-71 | sets the size of the next field, growing the buffer if it must |
| `PartObjects.MessageData.Push` | message_data.go:37-55 | any block, empty or after an error too: one within the declared size is queued, one past it is dropped with an error, and using the wake-up channel panics exactly if it was closed before |
| `PartObjects.MessageData.Read` | message_data.go:57-97 | bytes come out in the order they went in, as many as the first block has left and the target takes, and the queue moves on by those; the end comes only after exactly the declared number has come out |
| `PartObjects.DrainData` | message_data.go:57-97 | reading into non-empty targets of any sizes comes to an end with all that was pushed, and with the end of the data exactly if it has arrived whole |
| `PartObjects.MessageStream.Push` | message_stream.go:33-40 | a block is queued behind what was pushed before |
| `PartObjects.MessageStream.Read` | message_stream.go:49-84 | bytes come out in the order they went in, as many as the first block has left and the target takes, and the queue moves on by those; the end comes only after the close and with everything delivered |
| `PartObjects.DrainStream` | message_stream.go:49-84 | reading into non-empty targets of any sizes comes to an end with all that was pushed, and with the end of the stream exactly if it has been closed |
| `MessageReaderObjects.SlotsFit` | message_reader.go:8-64 | the reader of every field has the width that the flags announce |
| `MessageReaderObjects.StandsTells` | message_reader.go:67-202 | the step at which the reader stands says exactly which fields of the header have been read |
| `MessageReaderObjects.MessageReader.Get` | message_reader.go:67-202 | over any division of a header into calls and from any step at which the message came in: done exactly at the header's last byte; the fields behind that step are those decoded, the others untouched; not ready only if the packet ends within the field it stands at; then ready for the next header |
| `MessageReaderObjects.ReadInPieces` | message_reader.go:67-202 | a header read over any succession of packets is the header decoded at once, at its last byte; it fails to come only if packets or input are used up |
| `ParserChannelObjects.ParserChannel.InitMessage` | parser_channel.go:92-107 | starts a message, with blank fields, exactly if none is in progress; it goes on where the channel's reader is |
| `ParserChannelObjects.ParserChannel.MaybeEnd` | parser_channel.go:125-132 | frees the channel exactly if neither data nor stream is outstanding |
| `ParserChannelObjects.ParserChannel.ProcessMessage` | parser_channel.go:134-153 | reads on into the channel's message, delivered before or not: hands it over at the header's last byte and attaches its parts, keeps older data if the new header has none, and panics exactly on a 32-bit files size or on a message without data |
| `ParserChannelObjects.ParserChannel.ProcessData` | parser_channel.go:169-197 | passes on what window and budget hold, in order; the channel is freed exactly if that was the last part outstanding |
| `ParserChannelObjects.ParserChannel.ProcessStream` | parser_channel.go:199-226 | passes on what window and budget hold, in order, exactly if an open stream is attached |
| `ParserChannelObjects.ParserChannel.EndStream` | parser_channel.go:228-232 | ends the attached stream and frees the channel exactly if its data is done; without a stream it panics |
| `ParserObjects.Parser.constructor` | parser.go:48-76 | a new parser is at channel 0, between packets, with every channel idle |
| `ParserObjects.Parser.ReadHeader` | parser.go:78-113 | reads the protocol header as a whole, in whatever pieces it comes, with the greeting that `GreetingSays` describes, and leaves the parser at the first packet |
| `ParserObjects.Parser.SwitchTo` | parser.go:115-130 | makes the channel current, creating it on its first use, or refuses an id out of range |
| `ParserObjects.Parser.GetPacketSize` | parser.go:132-144 | reads the size in the width the signature announces; fails exactly if the input is too short or the width is 32 bits |
| `ParserObjects.Parser.BeginMessage` | parser.go:199-214 | starts and reads on with a message as the machine does, or stops with the machine's error |
| `ParserObjects.Parser.ContinueHeader` | parser_channel.go:159-167 | goes on with a header, of a message that is new or delivered before, as the machine does, or stops with the machine's error |
| `ParserObjects.Parser.BeginData` | parser.go:223-231 | enters a data payload as the machine does, or stops with the machine's error |
| `ParserObjects.Parser.BeginStream` | parser.go:232-240 | enters a stream payload as the machine does, or stops with the machine's error |
| `ParserObjects.Parser.EndStream` | parser.go:241-242 | ends the current stream as the machine does, or stops with the machine's error |
| `ParserObjects.Parser.Packet` | parser.go:171-250 | handles one signature of any of the sixteen kinds as the machine does |
| `ParserObjects.Parser.Read` | parser.go:146-252 | for every input: each read takes bytes, going past heartbeats and switches into a packet, and hands over a message if its header ends there; afterwards channels, messages and budget are what the machine makes of the bytes taken, or the machine has stopped with the same error |
| `ParserObjects.ReadAll` | parser.go:146-252 | for every input: repeated reads end, and hand over the machine's messages in the machine's order, each with its action at that time; in the end they have the machine's other fields and parts for the whole input, whatever the source's read sizes and the buffer size |
| `ParserObjects.Parser.UserReadsData` | message_data.go:57-97 | reading a message's data between the parser's reads does not disturb the parser, and gives the data's bytes in order, as many as block and target allow, up to its end |
| `ParserObjects.Parser.UserReadsStream` | message_stream.go:49-84 | the same for its stream, whose end is the sender's end marker |
| `EndToEnd.CutShort` | parser.go:146-252 | if a wire is read without reading on into a message, what it delivers when it is cut off is a beginning of what it delivers as a whole |
| `EndToEnd.Receive` | conn.go:110-147 | for all sends, finished or not, all interleavings, all negotiable channel counts except 256 and all ways the bytes arrive: the parser hands over exactly the messages begun, in header order, with their actions, and in the end with what has been sent of their parts, or a beginning of that if the connection is cut, and no error but the end of the input |
| `ActionStrings.ActionReader.Read` | stream_reader.go:65-96 | the string made of an action reads as it until the next action is read, which overwrites every earlier string of the same array and no other; a new array is taken exactly if the action does not fit |
| `ActionStrings.ActionStays` | byte_utils.go:45-48 | an overwritten action stays what it was if and only if one of the two begins with the other |
| `ActionStrings.LastLongEnough` | byte_utils.go:45-48 | after any number of actions each byte of an earlier one is that of the last action long enough to reach it |

## Left out

- ParserObjects.Parser.Read: data that overruns its declared size is always noticed, but whether as unexpected data, as a malformed size or by the panic of closing a channel twice (message_data.go:40-44) depends on the blocks it arrives in, so only this set of errors is stated.
- WriterObjects.ChannelManager.Reserve: stated for a scan during which no channel is released; in `Multiplex` a step may take any free channel, which covers releases during a scan.
- WriterObjects.Writer.WriteAndObtainChannel: one step here, two critical sections in the source (writer.go:109-112); no send uses it.
- WriterObjects.Writer.WriteAndReleaseChannel: one step here; the source releases after its critical section (writer.go:137-144). No send uses it.
- WriterObjects.ChannelManager.GetFree: as `Reserve`, stated for a scan during which no channel is released.
- StreamWriterObjects.FifoMutex.Lock: waiting is an answer here; that waiters are served in turn is in the labels of `Multiplex`.
- Liveness: that a reservation or a blocked read ever goes on. `released` is never made (channel_manager.go:32-35), and the wake-ups in message_data.go:73-77 and message_stream.go:60-64 can be missed.
- `WriteStandalone` and fast replies: writer.go:184 writes a payload without `writeMu`, fast_reply.go:19-21 declares a byte more than it writes, and the parser does not read them.
- Response, GoAway, Abort, Continue and File packets: the parser answers "not implemented", which is modelled; nothing else exists.
- Packets over 24 bits in `Multiplex`: what is written is proved up to 32 bits, but the reader panics on it (`RoundTrip.RunPrefix`), so senders there keep to 24. Sizes past 32 bits, which the source cuts off, are not modelled.
- Write failures: the target takes everything. `current` would be ahead of the wire (writer.go:76-83) and a channel would stay reserved (message_draft.go:110-113).
- A source that returns bytes together with an error, or no bytes and no error.
- SenderObjects.Pass: the goroutines of `send` are the two orders of its writes here, and one call's steps follow each other; `Multiplex` has them interleaved in every way, with each other and with other senders.
- SenderObjects.MessageRequest.Send: its stream's users are a sequence of calls between header and release, given beforehand; the readers of its signals have no model.
- The files fields of a draft: the source's file list is always empty (message_draft.go:63-67). The reader's side of them is modelled.
- The fields of a stream reader are in one sequence of a message reader, in the order of the source's fields.
- `emptyMessageData` is one shared object in the source and a new one per message here; nothing is ever pushed to it.
- ParserObjects.Parser.Read: a message's action is a copy taken when its header is read, and that of messages handed over earlier stays. In the source it is a string over the reader's bytes (byte_utils.go:45-48), which the next header on the channel overwrites; `ActionStrings` models that by itself and says exactly when the string stays. `ReadAll` and `Receive` speak only of the actions at the time of hand-over.
- ParserObjects.Parser.UserReadsData: a user who has kept the data that a message had before it was read on into is not modelled; one who asks the message is. User calls between two pushes of one parser read are outside, as each method is one critical section.
- ParserObjects.Parser.UserReadsStream: user calls between two pushes of one parser read are outside.
- Slices of the caller's buffers are arrays of their own here, and what is read is copied into the field's buffer.
- The offset of a packet is a field of its buffer here and part of a returned copy in the source.
- Reads of a stream after its first end: the source returns holding the mutex (message_stream.go:56-57), so they are excluded.
- `eof` of the buffered reader is never set in the source; the test at the start of `parser.Read` (parser.go:147-149) can therefore not succeed and is not repeated.
- Connection and server lifecycle, contexts, delivery of messages to the application, buffer pooling, UUID generation, the benchmark and the example.
